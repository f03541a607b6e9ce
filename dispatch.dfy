/** The dispatch loop of the stand-alone client (mqtt-client/src/bin/main.rs,
    repeated in mqtt-client/src/main.rs): jobs arrive one at a time, payloads
    are buffered per path, and a path's buffer is uploaded to the data lake
    when it reaches the job's batch size. */
module Dispatch {
  import opened Wrappers
  import opened Types

  /** One call of `upload_json_multiline`: container, file path, the lines
      in order, and the file extension. */
  datatype Upload = Upload(container: string, path: string, lines: seq<string>, extension: string)

  /** The upload the loop makes for a full buffer of `path`. */
  function UploadFor(path: string, lines: seq<string>): (u: Upload)
    ensures u.container == "raw" && u.extension == "json" && u.lines == lines
    ensures u.path == "rust-tests/" + path
  {
    Upload("raw", "rust-tests/" + path, lines, "json")
  }

  /** The effect of one job on the buffer when the store accepts every
      upload: the new buffer and the upload made, if any. */
  datatype Step = Step(entries: map<string, seq<string>>, upload: Option<Upload>)

  /** One iteration of the loop: an unroutable job is skipped; a job for a
      new path starts its buffer (with no batch-size check); a job for a
      known path is appended, and a buffer that reaches the batch size is
      uploaded and emptied, its path kept. */
  function Next(entries: map<string, seq<string>>, job: WriteJob): (s: Step)
    ensures forall k :: k != job.path ==> (k in s.entries <==> k in entries)
    ensures forall k :: k != job.path && k in entries ==> s.entries[k] == entries[k]
    ensures job.path != "" ==> job.path in s.entries
    ensures s.upload.Some? ==> job.path in entries && s.upload.value == UploadFor(job.path, entries[job.path] + [job.payload])
  {
    if job.path == "" then Step(entries, None)
    else if job.path !in entries then Step(entries[job.path := [job.payload]], None)
    else
      var lines := entries[job.path] + [job.payload];
      if |lines| == job.nPerFile then Step(entries[job.path := []], Some(UploadFor(job.path, lines)))
      else Step(entries[job.path := lines], None)
  }

  /** The loop's state: the buffers, the uploads made so far, and whether
      an upload failed (which ends the program through `?`). */
  datatype Outcome = Outcome(entries: map<string, seq<string>>, uploads: seq<Upload>, failed: bool)

  /** One job against a store that rejects the upload with index `rejects`
      (counting from 0), if any. A rejected upload leaves the appended
      buffer as it was: `clear` is never reached. */
  function Apply(o: Outcome, job: WriteJob, rejects: Option<nat>): (r: Outcome)
    ensures o.failed ==> r == o
    ensures !o.failed ==> r.uploads == o.uploads + (if Next(o.entries, job).upload.Some? then [Next(o.entries, job).upload.value] else [])
    ensures !o.failed ==> (r.failed <==> Next(o.entries, job).upload.Some? && rejects == Some(|o.uploads|))
    ensures !o.failed && !r.failed ==> r.entries == Next(o.entries, job).entries
    ensures !o.failed && r.failed ==> r.entries == o.entries[job.path := Next(o.entries, job).upload.value.lines]
  {
    if o.failed then o
    else
      var s := Next(o.entries, job);
      match s.upload
      case None => Outcome(s.entries, o.uploads, false)
      case Some(u) =>
        if rejects == Some(|o.uploads|) then
          Outcome(o.entries[job.path := u.lines], o.uploads + [u], true)
        else
          Outcome(s.entries, o.uploads + [u], false)
  }

  /** The loop over the received jobs, in order, until an upload fails. */
  function Run(o: Outcome, jobs: seq<WriteJob>, rejects: Option<nat>): (r: Outcome)
    ensures |r.uploads| >= |o.uploads| && r.uploads[..|o.uploads|] == o.uploads
    ensures o.failed ==> r == o
    decreases |jobs|
  {
    if jobs == [] || o.failed then o
    else Run(Apply(o, jobs[0], rejects), jobs[1..], rejects)
  }

  /** The loop's state as a mutable object: the `HashMap` of buffers and the
      uploads made to the store. */
  class BatchBuffer {
    var entries: map<string, seq<string>>
    var uploads: seq<Upload>
    var failed: bool

    /** `HashMap::new()`: no buffers, nothing uploaded. */
    constructor ()
      ensures entries == map[] && uploads == [] && !failed
    {
      entries := map[];
      uploads := [];
      failed := false;
    }

    function State(): Outcome
      reads this
    {
      Outcome(entries, uploads, failed)
    }

    /** The body of the loop for one received job. */
    method Dispatch(job: WriteJob, rejects: Option<nat>)
      requires !failed
      modifies this
      ensures State() == Apply(old(State()), job, rejects)
    {
      if job.path != "" {
        if job.path !in entries {
          entries := entries[job.path := [job.payload]];
        } else {
          var lines := entries[job.path] + [job.payload];
          entries := entries[job.path := lines];
          if |lines| == job.nPerFile {
            var call := UploadFor(job.path, lines);
            var index := |uploads|;
            uploads := uploads + [call];
            if rejects == Some(index) {
              failed := true;
            } else {
              entries := entries[job.path := []];
            }
          }
        }
      }
    }

    /** `for received in receiver`: every job in order, stopping at the
        first failed upload. */
    method Drain(jobs: seq<WriteJob>, rejects: Option<nat>)
      modifies this
      ensures State() == Run(old(State()), jobs, rejects)
    {
      var i := 0;
      while i < |jobs| && !failed
        invariant 0 <= i <= |jobs|
        invariant Run(State(), jobs[i..], rejects) == Run(old(State()), jobs, rejects)
      {
        assert jobs[i..][1..] == jobs[i + 1..];
        Dispatch(jobs[i], rejects);
        i := i + 1;
      }
    }
  }

  /** A job with an empty path leaves every buffer as it was and uploads
      nothing. */
  lemma UnroutableSkipped(entries: map<string, seq<string>>, job: WriteJob)
    requires job.path == ""
    ensures Next(entries, job) == Step(entries, None)
  {
  }

  /** A job for a path without a buffer starts it with its payload and
      uploads nothing, whatever its batch size. */
  lemma VacantInserted(entries: map<string, seq<string>>, job: WriteJob)
    requires job.path != "" && job.path !in entries
    ensures Next(entries, job) == Step(entries[job.path := [job.payload]], None)
  {
  }

  /** A job for a buffered path appends its payload at the end; when the
      buffer then holds exactly the batch size, those lines are uploaded in
      order and the buffer is emptied, its path kept. */
  lemma OccupiedAppended(entries: map<string, seq<string>>, job: WriteJob)
    requires job.path != "" && job.path in entries
    ensures var lines := entries[job.path] + [job.payload];
      && (|lines| == job.nPerFile ==> Next(entries, job) == Step(entries[job.path := []], Some(UploadFor(job.path, lines))))
      && (|lines| != job.nPerFile ==> Next(entries, job) == Step(entries[job.path := lines], None))
  {
  }

  /** The full batches of `s` of size `n`, in order. */
  function Chunks(s: seq<string>, n: nat): (r: seq<seq<string>>)
    requires n >= 1
    ensures forall i :: 0 <= i < |r| ==> |r[i]| == n
    decreases |s|
  {
    if |s| < n then [] else [s[..n]] + Chunks(s[n..], n)
  }

  /** What is left of `s` after its full batches of size `n`. */
  function Remainder(s: seq<string>, n: nat): (r: seq<string>)
    requires n >= 1
    ensures |r| < n
    decreases |s|
  {
    if |s| < n then s else Remainder(s[n..], n)
  }

  function Flatten(chunks: seq<seq<string>>): seq<string> {
    if chunks == [] then [] else chunks[0] + Flatten(chunks[1..])
  }

  /** The batches and the remainder together are the whole sequence, in
      order: nothing is lost, duplicated or reordered. */
  lemma {:induction false} ChunksRoundTrip(s: seq<string>, n: nat)
    requires n >= 1
    ensures Flatten(Chunks(s, n)) + Remainder(s, n) == s
    decreases |s|
  {
    if |s| >= n {
      ChunksRoundTrip(s[n..], n);
      assert Chunks(s, n)[1..] == Chunks(s[n..], n);
      assert s[..n] + s[n..] == s;
    }
  }

  /** The uploads of full batches for `path`. */
  function UploadsFor(path: string, chunks: seq<seq<string>>): seq<Upload> {
    seq(|chunks|, i requires 0 <= i < |chunks| => UploadFor(path, chunks[i]))
  }

  /** The jobs of one path, all with the same batch size. */
  function JobsFor(path: string, payloads: seq<string>, n: int): seq<WriteJob> {
    seq(|payloads|, i requires 0 <= i < |payloads| => WriteJob(path, payloads[i], n))
  }

  /** What a path has buffered. */
  function Pending(entries: map<string, seq<string>>, path: string): seq<string> {
    if path in entries then entries[path] else []
  }

  /** With a batch size of at least 2 and a store that accepts everything,
      the jobs of one path upload every full batch of the buffered and new
      payloads, in order, and leave the rest buffered, fewer than a batch. */
  lemma {:induction false} FlushEveryN(o: Outcome, path: string, payloads: seq<string>, n: nat)
    requires n >= 2 && path != "" && !o.failed
    requires |Pending(o.entries, path)| < n
    ensures var r := Run(o, JobsFor(path, payloads, n), None);
      && !r.failed
      && r.uploads == o.uploads + UploadsFor(path, Chunks(Pending(o.entries, path) + payloads, n))
      && (payloads != [] ==> path in r.entries && r.entries[path] == Remainder(Pending(o.entries, path) + payloads, n))
    decreases |payloads|, 1
  {
    if payloads == [] {
      assert Pending(o.entries, path) + payloads == Pending(o.entries, path);
    } else if |Pending(o.entries, path)| + 1 == n {
      FlushCompletesBatch(o, path, payloads, n);
    } else {
      FlushGrowsBuffer(o, path, payloads, n);
    }
  }

  /** The first job of `FlushEveryN` when it completes a batch. */
  lemma {:induction false} FlushCompletesBatch(o: Outcome, path: string, payloads: seq<string>, n: nat)
    requires n >= 2 && path != "" && !o.failed && payloads != []
    requires |Pending(o.entries, path)| + 1 == n
    ensures var r := Run(o, JobsFor(path, payloads, n), None);
      && !r.failed
      && r.uploads == o.uploads + UploadsFor(path, Chunks(Pending(o.entries, path) + payloads, n))
      && path in r.entries && r.entries[path] == Remainder(Pending(o.entries, path) + payloads, n)
    decreases |payloads|, 0
  {
    var pending := Pending(o.entries, path);
    var rest := payloads[1..];
    var batch := UploadFor(path, pending + [payloads[0]]);
    var later := UploadsFor(path, Chunks(rest, n));
    var o1 := CompletedBatch(o, path, payloads, n);
    var r1 := Run(o1, JobsFor(path, rest, n), None);
    assert !r1.failed && r1.uploads == (o.uploads + [batch]) + later
        && path in r1.entries && r1.entries[path] == Remainder(rest, n) by {
      FlushEveryN(o1, path, rest, n);
      assert Pending(o1.entries, path) + rest == rest;
      if rest == [] {
        assert Remainder(rest, n) == [];
      }
    }
    assert UploadsFor(path, Chunks(pending + payloads, n)) == [batch] + later
        && Remainder(pending + payloads, n) == Remainder(rest, n) by {
      FullBatchUploaded(pending, payloads, path, n);
    }
    AppendAssociative(o.uploads, [batch], later);
  }

  lemma AppendAssociative<T>(a: seq<T>, b: seq<T>, c: seq<T>)
    ensures a + (b + c) == (a + b) + c
  {
  }

  /** The first job of a path one short of a batch uploads the batch and
      empties the buffer; the rest of the jobs then start from nothing. */
  lemma CompletedBatch(o: Outcome, path: string, payloads: seq<string>, n: nat) returns (o1: Outcome)
    requires n >= 2 && path != "" && !o.failed && payloads != []
    requires |Pending(o.entries, path)| + 1 == n
    ensures !o1.failed && path in o1.entries && Pending(o1.entries, path) == []
    ensures o1.uploads == o.uploads + [UploadFor(path, Pending(o.entries, path) + [payloads[0]])]
    ensures Run(o, JobsFor(path, payloads, n), None) == Run(o1, JobsFor(path, payloads[1..], n), None)
  {
    o1 := Apply(o, WriteJob(path, payloads[0], n), None);
    RunFirstJob(o, path, payloads, n);
    OneJobOfPath(o, path, payloads[0], n);
  }

  lemma FullBatchUploaded(pending: seq<string>, payloads: seq<string>, path: string, n: nat)
    requires n >= 1 && payloads != [] && |pending| + 1 == n
    ensures UploadsFor(path, Chunks(pending + payloads, n))
         == [UploadFor(path, pending + [payloads[0]])] + UploadsFor(path, Chunks(payloads[1..], n))
    ensures Remainder(pending + payloads, n) == Remainder(payloads[1..], n)
  {
    var lines := pending + [payloads[0]];
    BatchesOfAppend(pending, payloads[0], payloads[1..], n);
    assert pending + payloads == pending + ([payloads[0]] + payloads[1..]);
    UploadsForCons(path, lines, Chunks(payloads[1..], n));
  }

  /** The uploads of a first batch and then others. */
  lemma UploadsForCons(path: string, first: seq<string>, others: seq<seq<string>>)
    ensures UploadsFor(path, [first] + others) == [UploadFor(path, first)] + UploadsFor(path, others)
  {
    var l := UploadsFor(path, [first] + others);
    var r := [UploadFor(path, first)] + UploadsFor(path, others);
    assert |l| == |r|;
    forall i | 0 <= i < |l|
      ensures l[i] == r[i]
    {
      if i > 0 {
        assert ([first] + others)[i] == others[i - 1];
      }
    }
  }

  /** The first job of `FlushEveryN` when it does not complete a batch. */
  lemma {:induction false} FlushGrowsBuffer(o: Outcome, path: string, payloads: seq<string>, n: nat)
    requires n >= 2 && path != "" && !o.failed && payloads != []
    requires |Pending(o.entries, path)| + 1 < n
    ensures var r := Run(o, JobsFor(path, payloads, n), None);
      && !r.failed
      && r.uploads == o.uploads + UploadsFor(path, Chunks(Pending(o.entries, path) + payloads, n))
      && path in r.entries && r.entries[path] == Remainder(Pending(o.entries, path) + payloads, n)
    decreases |payloads|, 0
  {
    var rest := payloads[1..];
    var o1 := GrownBuffer(o, path, payloads, n);
    FlushEveryN(o1, path, rest, n);
    if rest == [] {
      assert Pending(o.entries, path) + payloads == Pending(o1.entries, path) + rest;
    }
  }

  /** The first job of a path more than one short of a batch only appends
      to its buffer; the rest of the jobs then start from the longer buffer. */
  lemma GrownBuffer(o: Outcome, path: string, payloads: seq<string>, n: nat) returns (o1: Outcome)
    requires n >= 2 && path != "" && !o.failed && payloads != []
    requires |Pending(o.entries, path)| + 1 < n
    ensures !o1.failed && o1.uploads == o.uploads && path in o1.entries
    ensures Pending(o1.entries, path) == Pending(o.entries, path) + [payloads[0]]
    ensures Pending(o.entries, path) + payloads == Pending(o1.entries, path) + payloads[1..]
    ensures Run(o, JobsFor(path, payloads, n), None) == Run(o1, JobsFor(path, payloads[1..], n), None)
  {
    var pending := Pending(o.entries, path);
    o1 := Apply(o, WriteJob(path, payloads[0], n), None);
    RunFirstJob(o, path, payloads, n);
    OneJobOfPath(o, path, payloads[0], n);
    assert pending + payloads == pending + [payloads[0]] + payloads[1..];
  }

  /** Running the jobs of one path is running the first, then the rest. */
  lemma RunFirstJob(o: Outcome, path: string, payloads: seq<string>, n: nat)
    requires !o.failed && payloads != []
    ensures Run(o, JobsFor(path, payloads, n), None)
         == Run(Apply(o, WriteJob(path, payloads[0], n), None), JobsFor(path, payloads[1..], n), None)
  {
    var jobs := JobsFor(path, payloads, n);
    assert jobs[0] == WriteJob(path, payloads[0], n);
    assert jobs[1..] == JobsFor(path, payloads[1..], n);
  }

  /** One job of a path with batch size `n` and fewer than `n` payloads
      buffered: the buffer either grows by the payload or, reaching `n`,
      is uploaded and emptied. */
  lemma OneJobOfPath(o: Outcome, path: string, payload: string, n: nat)
    requires n >= 1 && path != "" && !o.failed
    requires |Pending(o.entries, path)| < n
    requires path !in o.entries ==> n >= 2
    ensures var r := Apply(o, WriteJob(path, payload, n), None);
      var lines := Pending(o.entries, path) + [payload];
      && !r.failed && path in r.entries
      && (|lines| == n ==> r.entries[path] == [] && r.uploads == o.uploads + [UploadFor(path, lines)])
      && (|lines| < n ==> r.entries[path] == lines && r.uploads == o.uploads)
  {
    if path !in o.entries {
      assert Pending(o.entries, path) + [payload] == [payload];
    }
  }

  /** Jobs for other paths never change a path's buffer, whatever the
      store does. */
  lemma {:induction false} OtherPathsUntouched(o: Outcome, jobs: seq<WriteJob>, path: string, rejects: Option<nat>)
    requires forall i :: 0 <= i < |jobs| ==> jobs[i].path != path
    ensures var r := Run(o, jobs, rejects);
      (path in r.entries <==> path in o.entries) && (path in o.entries ==> r.entries[path] == o.entries[path])
    decreases |jobs|
  {
    if jobs != [] && !o.failed {
      OtherPathsUntouched(Apply(o, jobs[0], rejects), jobs[1..], path, rejects);
    }
  }

  /** The payloads of the jobs for `path`, in arrival order. */
  function PayloadsOf(jobs: seq<WriteJob>, path: string): seq<string> {
    if jobs == [] then []
    else (if jobs[0].path == path then [jobs[0].payload] else []) + PayloadsOf(jobs[1..], path)
  }

  /** The uploads made to the file path `target`, in order. */
  function UploadsTo(uploads: seq<Upload>, target: string): seq<Upload> {
    if uploads == [] then []
    else
      var last := uploads[|uploads| - 1];
      UploadsTo(uploads[..|uploads| - 1], target) + (if last.path == target then [last] else [])
  }

  /** The batching promise per path, for any interleaving of jobs: when the
      store accepts everything and every job for `path` has the same batch
      size of at least 2, the uploads to that path's file are exactly the
      full batches of its buffered and new payloads, in order, and its
      buffer ends as the remainder, whatever the other paths do. */
  lemma {:induction false} FlushEveryNInterleaved(o: Outcome, jobs: seq<WriteJob>, path: string, n: nat)
    requires n >= 2 && path != "" && !o.failed
    requires |Pending(o.entries, path)| < n
    requires forall i :: 0 <= i < |jobs| && jobs[i].path == path ==> jobs[i].nPerFile == n
    ensures var r := Run(o, jobs, None);
      var all := Pending(o.entries, path) + PayloadsOf(jobs, path);
      && !r.failed
      && UploadsTo(r.uploads, "rust-tests/" + path)
         == UploadsTo(o.uploads, "rust-tests/" + path) + UploadsFor(path, Chunks(all, n))
      && Pending(r.entries, path) == Remainder(all, n)
    decreases |jobs|
  {
    var target := "rust-tests/" + path;
    var pending := Pending(o.entries, path);
    if jobs == [] {
      assert pending + PayloadsOf(jobs, path) == pending;
      assert UploadsFor(path, Chunks(pending, n)) == [];
    } else {
      var job := jobs[0];
      var o1 := Apply(o, job, None);
      var rest := PayloadsOf(jobs[1..], path);
      assert forall i :: 0 <= i < |jobs[1..]| && jobs[1..][i].path == path ==> jobs[1..][i].nPerFile == n by {
        forall i | 0 <= i < |jobs[1..]| ensures jobs[1..][i] == jobs[i + 1] { }
      }
      if job.path == path {
        assert job == WriteJob(path, job.payload, n);
        OwnPathStep(o, job.payload, rest, path, n);
        FlushEveryNInterleaved(o1, jobs[1..], path, n);
        var r := Run(o1, jobs[1..], None);
        var before := UploadsTo(o.uploads, target);
        var lines := pending + [job.payload];
        if |lines| == n {
          var later := UploadsFor(path, Chunks(Pending(o1.entries, path) + rest, n));
          assert UploadsTo(r.uploads, target) == (before + [UploadFor(path, lines)]) + later;
          AppendAssociative(before, [UploadFor(path, lines)], later);
        }
      } else {
        OtherPathStep(o, job, path);
        assert PayloadsOf(jobs, path) == rest;
        FlushEveryNInterleaved(o1, jobs[1..], path, n);
      }
    }
  }

  /** A job for `path` with batch size `n`, in terms of the uploads to its
      file and of what is left to come for it. */
  lemma OwnPathStep(o: Outcome, payload: string, rest: seq<string>, path: string, n: nat)
    requires n >= 2 && path != "" && !o.failed
    requires |Pending(o.entries, path)| < n
    ensures var o1 := Apply(o, WriteJob(path, payload, n), None);
      var lines := Pending(o.entries, path) + [payload];
      var target := "rust-tests/" + path;
      && !o1.failed && |Pending(o1.entries, path)| < n
      && (|lines| == n ==>
            && UploadsTo(o1.uploads, target) == UploadsTo(o.uploads, target) + [UploadFor(path, lines)]
            && UploadsFor(path, Chunks(Pending(o.entries, path) + ([payload] + rest), n))
               == [UploadFor(path, lines)] + UploadsFor(path, Chunks(Pending(o1.entries, path) + rest, n))
            && Remainder(Pending(o.entries, path) + ([payload] + rest), n)
               == Remainder(Pending(o1.entries, path) + rest, n))
      && (|lines| < n ==>
            && UploadsTo(o1.uploads, target) == UploadsTo(o.uploads, target)
            && Pending(o.entries, path) + ([payload] + rest) == Pending(o1.entries, path) + rest)
  {
    var pending := Pending(o.entries, path);
    var o1 := Apply(o, WriteJob(path, payload, n), None);
    var lines := pending + [payload];
    OneJobOfPath(o, path, payload, n);
    BatchesOfAppend(pending, payload, rest, n);
    if |lines| == n {
      UploadsToAppend(o.uploads, UploadFor(path, lines), "rust-tests/" + path);
      assert Pending(o1.entries, path) + rest == rest;
      UploadsForCons(path, lines, Chunks(rest, n));
    }
  }

  /** A job for another path leaves `path`'s buffer and the uploads to its
      file as they were. */
  lemma OtherPathStep(o: Outcome, job: WriteJob, path: string)
    requires job.path != path && !o.failed
    ensures var o1 := Apply(o, job, None);
      && !o1.failed && Pending(o1.entries, path) == Pending(o.entries, path)
      && UploadsTo(o1.uploads, "rust-tests/" + path) == UploadsTo(o.uploads, "rust-tests/" + path)
  {
    var s := Next(o.entries, job);
    if s.upload.Some? {
      var u := s.upload.value;
      UploadsToAppend(o.uploads, u, "rust-tests/" + path);
      var prefix := "rust-tests/";
      assert (prefix + job.path)[|prefix|..] == job.path && (prefix + path)[|prefix|..] == path;
      assert u.path != prefix + path;
    }
  }

  /** Filtering by file path distributes over one more upload. */
  lemma UploadsToAppend(uploads: seq<Upload>, u: Upload, target: string)
    ensures UploadsTo(uploads + [u], target) == UploadsTo(uploads, target) + (if u.path == target then [u] else [])
  {
    assert (uploads + [u])[..|uploads|] == uploads;
  }

  /** Adding one payload to a buffer shorter than `n` either completes the
      first batch or leaves the batches as they were. */
  lemma BatchesOfAppend(pending: seq<string>, x: string, rest: seq<string>, n: nat)
    requires n >= 1 && |pending| < n
    ensures var lines := pending + [x];
      && (|lines| == n ==>
            && Chunks(pending + ([x] + rest), n) == [lines] + Chunks(rest, n)
            && Remainder(pending + ([x] + rest), n) == Remainder(rest, n))
      && (|lines| < n ==> pending + ([x] + rest) == lines + rest)
  {
    var lines := pending + [x];
    assert pending + ([x] + rest) == lines + rest;
    if |lines| == n {
      assert (lines + rest)[..n] == lines && (lines + rest)[n..] == rest;
    }
  }

  /** With a batch size of 1 a new path never uploads: its first payload
      starts the buffer without a check, and every later length exceeds 1. */
  lemma {:induction false} ThresholdOneNeverFlushes(o: Outcome, path: string, payloads: seq<string>)
    requires path != "" && !o.failed
    requires path !in o.entries || |o.entries[path]| >= 1
    ensures var r := Run(o, JobsFor(path, payloads, 1), None);
      && r.uploads == o.uploads
      && (payloads != [] ==> path in r.entries && r.entries[path] == Pending(o.entries, path) + payloads)
    decreases |payloads|
  {
    if payloads != [] {
      var o1 := Apply(o, JobsFor(path, payloads, 1)[0], None);
      assert JobsFor(path, payloads, 1)[1..] == JobsFor(path, payloads[1..], 1);
      assert o1.entries[path] == Pending(o.entries, path) + [payloads[0]];
      ThresholdOneNeverFlushes(o1, path, payloads[1..]);
      assert [payloads[0]] + payloads[1..] == payloads;
      AppendAssociative(Pending(o.entries, path), [payloads[0]], payloads[1..]);
    }
  }

  /** A store that rejects upload `k` changes nothing up to that upload:
      the run fails exactly when the fault-free run makes more than `k`
      uploads, and then it has made the first `k + 1` of them and no more. */
  lemma {:induction false} RejectionStopsTheLoop(o: Outcome, jobs: seq<WriteJob>, k: nat)
    requires !o.failed && |o.uploads| <= k
    ensures var good := Run(o, jobs, None);
      var bad := Run(o, jobs, Some(k));
      && (bad.failed <==> |good.uploads| > k)
      && (bad.failed ==> bad.uploads == good.uploads[..k + 1])
      && (!bad.failed ==> bad == good)
    decreases |jobs|
  {
    if jobs != [] {
      var s := Next(o.entries, jobs[0]);
      var good1 := Apply(o, jobs[0], None);
      var bad1 := Apply(o, jobs[0], Some(k));
      if bad1.failed {
        var good := Run(good1, jobs[1..], None);
        assert |good1.uploads| == k + 1;
        assert good.uploads[..k + 1] == good1.uploads;
      } else {
        assert bad1 == good1;
        RejectionStopsTheLoop(good1, jobs[1..], k);
      }
    }
  }

  /** The loop step as evidently intended: the batch size is checked after
      every insertion, the first payload of a path included. */
  function NextCorrected(entries: map<string, seq<string>>, job: WriteJob): (s: Step)
    ensures job.path == "" ==> s == Step(entries, None)
    ensures job.path != "" && job.path in entries ==> s == Next(entries, job)
    ensures job.path !in entries && job.nPerFile != 1 ==> s == Next(entries, job)
  {
    if job.path == "" then Step(entries, None)
    else
      var lines := if job.path in entries then entries[job.path] + [job.payload] else [job.payload];
      if |lines| == job.nPerFile then Step(entries[job.path := []], Some(UploadFor(job.path, lines)))
      else Step(entries[job.path := lines], None)
  }

  /** Under the corrected step a buffer stays below its batch size: the
      payload that completes a batch is uploaded with the lines before it,
      in order, and the buffer is emptied; any other payload is appended. */
  lemma CorrectedFlushesAtThreshold(entries: map<string, seq<string>>, job: WriteJob)
    requires job.path != "" && job.nPerFile >= 1 && |Pending(entries, job.path)| < job.nPerFile
    ensures var s := NextCorrected(entries, job);
      var lines := Pending(entries, job.path) + [job.payload];
      && job.path in s.entries && |s.entries[job.path]| < job.nPerFile
      && (s.upload.Some? <==> |lines| == job.nPerFile)
      && (s.upload.Some? ==> s.upload.value == UploadFor(job.path, lines) && s.entries[job.path] == [])
      && (s.upload.None? ==> s.entries[job.path] == lines)
  {
    if job.path !in entries {
      assert Pending(entries, job.path) + [job.payload] == [job.payload];
    }
  }

  /** With a batch size of 1 the corrected step uploads every payload on
      its own, on a path seen before or not. */
  lemma CorrectedThresholdOneUploadsEach(entries: map<string, seq<string>>, path: string, payload: string)
    requires path != "" && Pending(entries, path) == []
    ensures NextCorrected(entries, WriteJob(path, payload, 1)) == Step(entries[path := []], Some(UploadFor(path, [payload])))
  {
    assert Pending(entries, path) + [payload] == [payload];
  }

  /** Where the loop as written keeps the payload of a new path with batch
      size 1 and uploads nothing. */
  lemma ThresholdOneFirstPayloadKept(entries: map<string, seq<string>>, path: string, payload: string)
    requires path != "" && path !in entries
    ensures Next(entries, WriteJob(path, payload, 1)) == Step(entries[path := [payload]], None)
    ensures NextCorrected(entries, WriteJob(path, payload, 1)).upload == Some(UploadFor(path, [payload]))
  {
    CorrectedThresholdOneUploadsEach(entries, path, payload);
  }
}
