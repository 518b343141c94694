/**
 The download handler of a file message: early exit without a source URL,
 the HTTP status check, the chunked read loop that accumulates the loaded
 byte count and publishes percentages, the whole-body fallback when no
 stream reader exists, and the `finally` reset of the UI state. The fetch
 and everything it returns is an input (`FetchOutcome`); the output is the
 ordered trace of state updates, saves and logged errors.
 */
module FileDownload {
  import opened JsValues
  import opened Entity

  newtype byte = x: int | 0 <= x < 256

  /** How the stream reader ends after the listed chunks: `done`, or a read that throws. */
  datatype StreamEnd = EndOfStream | ReadFails

  /** The response body: a stream of chunks, or no reader and a `blob()` that may reject. */
  datatype Body =
    | Chunked(chunks: seq<seq<byte>>, end: StreamEnd)
    | NoReader(blob: Option<seq<byte>>)

  /**
   The fetch: rejected outright, or a response. `total` is the parsed
   `content-length`, 0 when it is absent or does not parse.
   */
  datatype FetchOutcome =
    | FetchRejected
    | Response(ok: bool, status: int, total: nat, body: Body)

  datatype DownloadError = HttpError(status: int) | NetworkError | ReadError | BlobError

  /** Observable effects: the two UI state setters, the save interaction, the error log. */
  datatype DownloadEffect =
    | SetDownloading(on: bool)
    | SetProgress(percent: int)
    | Save(bytes: seq<byte>, name: string)
    | LogError(error: DownloadError)

  /** The UI state the setters write. */
  datatype DownloadView = DownloadView(downloading: bool, progress: int)

  const Idle := DownloadView(false, 0)
  const Begin: seq<DownloadEffect> := [SetDownloading(true), SetProgress(0)]
  const Finally: seq<DownloadEffect> := [SetDownloading(false), SetProgress(0)]

  /** `fileElem?.sourceUrl` is truthy. */
  predicate HasSource(file: Option<FileElem>) {
    file.Some? && file.value.sourceUrl != ""
  }

  /** The name offered to the save interaction: the file name, or "file" when it is empty. */
  function SaveName(f: FileElem): (r: string)
    ensures r != ""
    ensures f.fileName != "" ==> r == f.fileName
    ensures f.fileName == "" ==> r == "file"
  {
    OrElse(f.fileName, "file")
  }

  /** Total length of the chunks. */
  function SumLengths(chunks: seq<seq<byte>>): nat {
    if |chunks| == 0 then 0 else SumLengths(chunks[..|chunks| - 1]) + |chunks[|chunks| - 1]|
  }

  /** The chunks joined in read order (what `new Blob(chunks)` holds). */
  function Concat(chunks: seq<seq<byte>>): seq<byte> {
    if |chunks| == 0 then [] else Concat(chunks[..|chunks| - 1]) + chunks[|chunks| - 1]
  }

  /**
   The percentages published while reading: none when the total is unknown,
   otherwise one per chunk, the loaded count so far times 100 over the total.
   */
  function PublishedProgress(chunks: seq<seq<byte>>, total: nat): (r: seq<int>)
    ensures |r| == if total == 0 then 0 else |chunks|
  {
    if total == 0 then []
    else seq(|chunks|, i requires 0 <= i < |chunks| => Percent(SumLengths(chunks[..i + 1]), total))
  }

  /** `loaded * 100 / total`, the integer form of the floor percentage. */
  function Percent(loaded: nat, total: nat): int
    requires total > 0
  {
    loaded * 100 / total
  }

  /** Each published percentage is the floor of the loaded count so far times 100 over the total. */
  lemma PublishedProgressIsFloor(chunks: seq<seq<byte>>, total: nat, i: nat)
    requires i < |PublishedProgress(chunks, total)|
    ensures var p := PublishedProgress(chunks, total)[i];
      0 <= p && p * total <= SumLengths(chunks[..i + 1]) * 100 < (p + 1) * total
  {
    var x := SumLengths(chunks[..i + 1]) * 100;
    assert PublishedProgress(chunks, total)[i] == Percent(SumLengths(chunks[..i + 1]), total) == x / total;
    FloorDivision(x, total);
  }

  lemma FloorDivision(x: nat, d: nat)
    requires d > 0
    ensures 0 <= x / d && (x / d) * d <= x < (x / d + 1) * d
  {
    assert x == d * (x / d) + x % d;
  }

  function ProgressEffects(percents: seq<int>): seq<DownloadEffect> {
    seq(|percents|, i requires 0 <= i < |percents| => SetProgress(percents[i]))
  }

  /** The progress setters as the read loop issues them: one more after each chunk when the total is known. */
  function ProgressTrace(chunks: seq<seq<byte>>, total: nat): seq<DownloadEffect> {
    if |chunks| == 0 || total == 0 then []
    else ProgressTrace(chunks[..|chunks| - 1], total) + [SetProgress(Percent(SumLengths(chunks), total))]
  }

  /** The UI state after a trace of effects. */
  function Apply(v: DownloadView, effects: seq<DownloadEffect>): DownloadView
    decreases |effects|
  {
    if |effects| == 0 then v
    else
      var next := match effects[0]
        case SetDownloading(on) => v.(downloading := on)
        case SetProgress(p) => v.(progress := p)
        case _ => v;
      Apply(next, effects[1..])
  }

  /** Whether a trace saves anything. */
  predicate Saves(effects: seq<DownloadEffect>) {
    exists i :: 0 <= i < |effects| && effects[i].Save?
  }

  /** What happens between the initial state updates and the `finally` reset. */
  function Middle(f: FileElem, fetch: FetchOutcome): (r: seq<DownloadEffect>)
    ensures |r| > 0 && (r[|r| - 1].Save? || r[|r| - 1].LogError?)
    ensures forall i :: 0 <= i < |r| - 1 ==> r[i].SetProgress?
    ensures r[|r| - 1].Save? ==> r[|r| - 1].name == SaveName(f)
    ensures fetch.Response? && !fetch.ok ==> r == [LogError(HttpError(fetch.status))]
  {
    match fetch
    case FetchRejected => [LogError(NetworkError)]
    case Response(ok, status, total, body) =>
      if !ok then [LogError(HttpError(status))]
      else match body
        case NoReader(blob) =>
          if blob.Some? then [Save(blob.value, SaveName(f))] else [LogError(BlobError)]
        case Chunked(chunks, end) =>
          ProgressEffects(PublishedProgress(chunks, total))
          + (if end == EndOfStream then [Save(Concat(chunks), SaveName(f))] else [LogError(ReadError)])
  }

  /** Reference trace of one click on the file bubble. */
  function Expected(file: Option<FileElem>, fetch: FetchOutcome): (r: seq<DownloadEffect>)
    ensures !HasSource(file) ==> r == []
    ensures HasSource(file) ==> |r| >= 5 && r[..2] == Begin && r[|r| - 2..] == Finally
    ensures HasSource(file) ==> r[2..|r| - 2] == Middle(file.value, fetch)
  {
    if !HasSource(file) then [] else Begin + Middle(file.value, fetch) + Finally
  }

  /**
   The handler itself. Without a source URL nothing happens. Otherwise the
   downloading flag is raised and the progress zeroed, the fetch is
   examined, a stream is read chunk by chunk, and in every case the state
   is reset at the end.
   */
  method HandleDownload(file: Option<FileElem>, fetch: FetchOutcome) returns (effects: seq<DownloadEffect>)
    ensures effects == Expected(file, fetch)
    ensures !HasSource(file) ==> effects == []
    ensures HasSource(file) ==> effects[..2] == Begin && effects[|effects| - 2..] == Finally
  {
    if !HasSource(file) {
      return [];
    }
    var f := file.value;
    effects := Begin;
    var middle: seq<DownloadEffect>;
    match fetch {
      case FetchRejected =>
        middle := [LogError(NetworkError)];
      case Response(ok, status, total, body) =>
        if !ok {
          middle := [LogError(HttpError(status))];
        } else {
          match body {
            case NoReader(blob) =>
              middle := if blob.Some? then [Save(blob.value, SaveName(f))] else [LogError(BlobError)];
            case Chunked(chunks, end) =>
              var loaded;
              middle, loaded := ReadChunks(chunks, end, total, SaveName(f));
          }
        }
    }
    effects := effects + middle + Finally;
  }

  /**
   The read loop: every chunk is appended and counted, and when the total
   is known the floor percentage is published after it. At the end the
   joined chunks are saved, unless the last read threw.
   */
  method ReadChunks(chunks: seq<seq<byte>>, end: StreamEnd, total: nat, name: string)
    returns (effects: seq<DownloadEffect>, loaded: nat)
    ensures loaded == SumLengths(chunks) == |Concat(chunks)|
    ensures effects == ProgressEffects(PublishedProgress(chunks, total))
      + (if end == EndOfStream then [Save(Concat(chunks), name)] else [LogError(ReadError)])
  {
    var received: seq<seq<byte>> := [];
    loaded := 0;
    effects := [];
    var i := 0;
    while i < |chunks|
      invariant 0 <= i <= |chunks|
      invariant received == chunks[..i]
      invariant loaded == SumLengths(chunks[..i])
      invariant effects == ProgressTrace(chunks[..i], total)
    {
      PrefixStep(chunks, i, total);
      received := received + [chunks[i]];
      loaded := loaded + |chunks[i]|;
      if total != 0 {
        effects := effects + [SetProgress(Percent(loaded, total))];
      }
      i := i + 1;
    }
    assert received == chunks;
    ConcatLength(chunks);
    ProgressTraceIsPublished(chunks, total);
    if end == EndOfStream {
      effects := effects + [Save(Concat(received), name)];
    } else {
      effects := effects + [LogError(ReadError)];
    }
  }

  /** Extending the read prefix by one chunk extends the count and the progress setters by one step. */
  lemma PrefixStep(chunks: seq<seq<byte>>, i: nat, total: nat)
    requires i < |chunks|
    ensures SumLengths(chunks[..i + 1]) == SumLengths(chunks[..i]) + |chunks[i]|
    ensures ProgressTrace(chunks[..i + 1], total)
         == ProgressTrace(chunks[..i], total)
            + (if total != 0 then [SetProgress(Percent(SumLengths(chunks[..i + 1]), total))] else [])
  {
    assert chunks[..i + 1][..i] == chunks[..i];
  }

  /** The setters the loop issues are exactly the closed-form percentages, in order. */
  lemma {:induction false} ProgressTraceIsPublished(chunks: seq<seq<byte>>, total: nat)
    ensures ProgressTrace(chunks, total) == ProgressEffects(PublishedProgress(chunks, total))
  {
    if |chunks| > 0 && total != 0 {
      var n := |chunks| - 1;
      var front := chunks[..n];
      ProgressTraceIsPublished(front, total);
      var longer := PublishedProgress(chunks, total);
      var shorter := PublishedProgress(front, total);
      forall j | 0 <= j < n
        ensures longer[j] == shorter[j]
      {
        assert chunks[..j + 1] == front[..j + 1];
      }
      assert chunks[..n + 1] == chunks;
      assert longer == shorter + [Percent(SumLengths(chunks), total)];
      assert ProgressEffects(longer) == ProgressEffects(shorter) + [SetProgress(Percent(SumLengths(chunks), total))];
    }
  }

  lemma {:induction false} ApplyAppend(v: DownloadView, a: seq<DownloadEffect>, b: seq<DownloadEffect>)
    ensures Apply(v, a + b) == Apply(Apply(v, a), b)
    decreases |a|
  {
    if |a| > 0 {
      assert (a + b)[1..] == a[1..] + b;
      var next := match a[0]
        case SetDownloading(on) => v.(downloading := on)
        case SetProgress(p) => v.(progress := p)
        case _ => v;
      ApplyAppend(next, a[1..], b);
    } else {
      assert a + b == b;
    }
  }

  /** Whatever ran before it, the `finally` block leaves the UI idle. */
  lemma EndsIdle(v: DownloadView, before: seq<DownloadEffect>)
    ensures Apply(v, before + Finally) == Idle
  {
    ApplyAppend(v, before, Finally);
    assert Finally[1..][1..] == [];
  }

  /** Every click that gets past the early exit leaves the UI idle, from any prior state. */
  lemma DownloadEndsIdle(file: Option<FileElem>, fetch: FetchOutcome, v: DownloadView)
    requires HasSource(file)
    ensures Apply(v, Expected(file, fetch)) == Idle
  {
    EndsIdle(v, Begin + Middle(file.value, fetch));
  }

  /** The saved blob holds exactly the loaded number of bytes. */
  lemma {:induction false} ConcatLength(chunks: seq<seq<byte>>)
    ensures |Concat(chunks)| == SumLengths(chunks)
  {
    if |chunks| > 0 {
      ConcatLength(chunks[..|chunks| - 1]);
    }
  }

  /** The loaded count never decreases as more chunks are read. */
  lemma {:induction false} SumLengthsMonotone(chunks: seq<seq<byte>>, i: nat, j: nat)
    requires i <= j <= |chunks|
    ensures SumLengths(chunks[..i]) <= SumLengths(chunks[..j])
    decreases j - i
  {
    if i < j {
      PrefixStep(chunks, i, 0);
      SumLengthsMonotone(chunks, i + 1, j);
    }
  }

  lemma DivMonotone(a: nat, b: nat, d: nat)
    requires a <= b && d > 0
    ensures a / d <= b / d
  {
    var qa, qb := a / d, b / d;
    assert d * qa <= a;
    assert b < d * qb + d;
    assert d * qa < d * (qb + 1);
    MulCancel(d, qa, qb + 1);
  }

  lemma MulCancel(d: nat, x: int, y: int)
    requires d > 0 && d * x < d * y
    ensures x < y
  {
  }

  /** The published percentages never go down. */
  lemma ProgressMonotone(chunks: seq<seq<byte>>, total: nat)
    ensures forall i, j :: 0 <= i <= j < |PublishedProgress(chunks, total)| ==>
      PublishedProgress(chunks, total)[i] <= PublishedProgress(chunks, total)[j]
  {
    var published := PublishedProgress(chunks, total);
    forall i, j | 0 <= i <= j < |published|
      ensures published[i] <= published[j]
    {
      SumLengthsMonotone(chunks, i + 1, j + 1);
      DivMonotone(SumLengths(chunks[..i + 1]) * 100, SumLengths(chunks[..j + 1]) * 100, total);
    }
  }

  lemma PercentAtMost100(loaded: nat, total: nat)
    requires 0 < total && loaded <= total
    ensures loaded * 100 / total <= 100
    ensures loaded == total ==> loaded * 100 / total == 100
  {
    DivMonotone(loaded * 100, total * 100, total);
    assert total * 100 / total == 100 by {
      assert total * 100 == 100 * total;
    }
  }

  /** While the loaded count has not passed the total, no published percentage exceeds 100. */
  lemma ProgressBounded(chunks: seq<seq<byte>>, total: nat, i: nat)
    requires i < |PublishedProgress(chunks, total)|
    requires SumLengths(chunks[..i + 1]) <= total
    ensures PublishedProgress(chunks, total)[i] <= 100
  {
    PercentAtMost100(SumLengths(chunks[..i + 1]), total);
  }

  /** When the chunks add up to the announced total, the last percentage published is 100. */
  lemma ProgressReaches100(chunks: seq<seq<byte>>, total: nat)
    requires total > 0 && SumLengths(chunks) == total
    ensures |PublishedProgress(chunks, total)| == |chunks| > 0
    ensures PublishedProgress(chunks, total)[|chunks| - 1] == 100
  {
    assert chunks[..|chunks|] == chunks;
    PercentAtMost100(total, total);
  }

  /**
   Something is saved exactly when there is a source URL, the response is
   ok, and either the whole body was obtained or the stream ended normally.
   */
  lemma SavesIff(file: Option<FileElem>, fetch: FetchOutcome)
    ensures Saves(Expected(file, fetch)) <==>
      HasSource(file) && fetch.Response? && fetch.ok
      && ((fetch.body.NoReader? && fetch.body.blob.Some?)
          || (fetch.body.Chunked? && fetch.body.end == EndOfStream))
  {
    var effects := Expected(file, fetch);
    if HasSource(file) {
      var middle := Middle(file.value, fetch);
      assert effects == Begin + middle + Finally;
      if fetch.Response? && fetch.ok && fetch.body.Chunked? && fetch.body.end == EndOfStream {
        assert effects[|effects| - 3].Save?;
      } else if fetch.Response? && fetch.ok && fetch.body.NoReader? && fetch.body.blob.Some? {
        assert effects[2].Save?;
      } else {
        forall i | 0 <= i < |effects|
          ensures !effects[i].Save?
        {
          if 2 <= i < 2 + |middle| {
            assert effects[i] == middle[i - 2];
          }
        }
      }
    }
  }

  /**
   A response that is not ok, or has no stream reader, or has no usable
   length publishes no percentage other than the two zeros of the initial
   and final state updates.
   */
  lemma NoProgressPublished(file: Option<FileElem>, fetch: FetchOutcome)
    requires fetch.FetchRejected? || !fetch.ok || fetch.body.NoReader? || fetch.total == 0
    ensures forall i :: 0 <= i < |Expected(file, fetch)| && Expected(file, fetch)[i].SetProgress? ==>
      Expected(file, fetch)[i].percent == 0
  {
  }
}
