/** The resumable, verified download of one artifact: a retry loop over the target,
    the partial file and the verification stamp. The hash is an arbitrary function
    and the server an arbitrary one too; what an honest server gives is stated. */
module RuntimeDownload {
  import opened Options

  // ---------------------------------------------------------------- data model

  type Data = seq<nat>

  /** A file with its modification time. */
  datatype FileState = FileState(data: Data, mtime: nat)

  /** What a verification stamp says. */
  datatype Stamp = Stamp(digest: nat, size: nat, mtime: nat)

  /** A Content-Range header: first byte, last byte, total (None for "*"). */
  datatype ContentRange = ContentRange(start: nat, last: nat, total: Option<nat>)

  datatype Response =
    | HttpError(code: nat)
    | Broken                                                // no response at all
    | Body(status: nat, range: Option<ContentRange>, chunks: seq<Data>, clean: bool)

  /** The artifact that is asked for. */
  datatype Artifact = Artifact(size: nat, digest: nat, hash: Data -> nat)

  type Server = (nat, nat) -> Response                      // attempt, requested start

  datatype Outcome = Installed | Raised

  const Attempts: nat := 4

  function Concat(chunks: seq<Data>): Data {
    if chunks == [] then [] else chunks[0] + Concat(chunks[1..])
  }

  /** _validate_content_range: does it return rather than raise? */
  predicate RangeAccepted(range: Option<ContentRange>, start: nat, size: nat) {
    && range.Some?
    && range.value.start == start && range.value.last >= start
    && (range.value.total.Some? ==> range.value.total.value == size)
  }

  /** An honest server sends bytes of the content, from where it says it does. */
  ghost predicate HonestResponse(r: Response, start: nat, content: Data) {
    r.Body? ==>
      && (r.status == 206 ==> start <= |content| && Concat(r.chunks) <= content[start..])
      && (r.status == 200 ==> Concat(r.chunks) <= content)
  }

  ghost predicate Honest(server: Server, content: Data) {
    forall k, start :: HonestResponse(server(k, start), start, content)
  }

  /** The response that leaves nothing to be fetched. */
  predicate Whole(r: Response, start: nat, size: nat) {
    && r.Body? && r.clean
    && ((r.status == 206 && RangeAccepted(r.range, start, size) && start + |Concat(r.chunks)| == size)
        || (r.status == 200 && |Concat(r.chunks)| == size))
  }

  /** A response that may fetch nothing, or a part, but does not end the attempts. */
  predicate Harmless(r: Response, start: nat, size: nat) {
    match r
    case HttpError(code) => code == 416 || code < 400 || code >= 500
    case Broken => true
    case Body(status, range, _, _) => status == 200 || (status == 206 && RangeAccepted(range, start, size))
  }

  /** A stamp that matches the file it stands beside tells the truth about it. */
  predicate StampCurrent(target: Option<FileState>, stamp: Option<Stamp>, a: Artifact) {
    target.Some? && stamp == Some(Stamp(a.digest, a.size, target.value.mtime))
  }

  predicate Verified(target: Option<FileState>, a: Artifact) {
    target.Some? && |target.value.data| == a.size && a.hash(target.value.data) == a.digest
  }

  predicate Truthful(target: Option<FileState>, stamp: Option<Stamp>, a: Artifact) {
    StampCurrent(target, stamp, a) && |target.value.data| == a.size ==> Verified(target, a)
  }

  predicate PrefixOf(part: Option<FileState>, content: Data) {
    part.Some? ==> part.value.data <= content
  }

  // --------------------------------------------------------------- the installer

  class Installer {
    const artifact: Artifact
    const content: Data
    var target: Option<FileState>
    var part: Option<FileState>
    var stamp: Option<Stamp>
    var clock: nat
    ghost var seen: seq<Option<FileState>>     // the partial file after every change
    ghost var starts: seq<nat>                 // its size when an attempt begins

    constructor (artifact: Artifact, content: Data)
      ensures this.artifact == artifact && this.content == content
      ensures target.None? && part.None? && stamp.None? && seen == [] && starts == []
    {
      this.artifact, this.content := artifact, content;
      target, part, stamp, clock, seen, starts := None, None, None, 0, [], [];
    }

    function PartSize(): nat
      reads this
    {
      if part.Some? then |part.value.data| else 0
    }

    /** Every state of the partial file since the call began is a prefix. */
    twostate predicate AlwaysPrefix()
      reads this
    {
      && old(seen) <= seen
      && PrefixOf(part, content)
      && forall k | |old(seen)| <= k < |seen| :: PrefixOf(seen[k], content)
    }

    method SetPart(data: Data)
      modifies this`part, this`clock, this`seen
      ensures part.Some? && part.value.data == data && seen == old(seen) + [part]
    {
      clock := clock + 1;
      part := Some(FileState(data, clock));
      seen := seen + [part];
    }

    method RemovePart()
      modifies this`part, this`seen
      ensures part.None? && seen == old(seen) + [None]
    {
      part := None;
      seen := seen + [part];
    }

    /** _verified_file on the target, which trusts a current stamp. */
    method TargetVerified() returns (ok: bool)
      modifies this`stamp
      ensures ok ==> target.Some? && |target.value.data| == artifact.size
      ensures ok ==> StampCurrent(target, old(stamp), artifact) || Verified(target, artifact)
      ensures Verified(target, artifact) ==> ok
      ensures Truthful(target, old(stamp), artifact) ==> Truthful(target, stamp, artifact) && (ok ==> Verified(target, artifact))
    {
      if target.None? || |target.value.data| != artifact.size {
        return false;
      }
      if StampCurrent(target, stamp, artifact) {
        return true;
      }
      if artifact.hash(target.value.data) != artifact.digest {
        return false;
      }
      stamp := Some(Stamp(artifact.digest, artifact.size, target.value.mtime));
      return true;
    }

    /** What there is to resume: the partial file, or a target that is too short, unless
        it is longer than the artifact. */
    function Kept(target: Option<FileState>, part: Option<FileState>): Option<FileState> {
      if part.Some? then (if |part.value.data| <= artifact.size then part else None)
      else if target.Some? && |target.value.data| < artifact.size then target
      else None
    }

    /** _prepare_download_target: a short target becomes the partial file. */
    method Prepare()
      modifies this`target, this`part, this`stamp, this`seen
      ensures target.None?
      ensures PartSize() <= artifact.size
      ensures part == old(Kept(target, part))
      ensures stamp == if old(target).Some? then None else old(stamp)
      ensures PrefixOf(old(part), content) && (old(part).None? ==> PrefixOf(old(target), content)) ==> AlwaysPrefix()
    {
      if target.Some? {
        stamp := None;
        if |target.value.data| < artifact.size && part.None? {
          part := target;
          seen := seen + [part];
        }
        target := None;
      }
      if part.Some? && |part.value.data| > artifact.size {
        RemovePart();
      }
    }

    /** _finish_download: promote a complete and verified partial file; a complete one
        with another hash is dropped. */
    method Finish() returns (ok: bool)
      modifies this`target, this`part, this`stamp, this`seen
      ensures ok <==> Verified(old(part), artifact)
      ensures ok ==> Verified(target, artifact) && target == old(part) && part.None? && StampCurrent(target, stamp, artifact)
      ensures !ok ==> target == old(target) && stamp == old(stamp)
      ensures !ok ==> part == if old(part).Some? && old(PartSize()) == artifact.size then None else old(part)
      ensures PrefixOf(old(part), content) ==> AlwaysPrefix()
    {
      if part.None? || |part.value.data| != artifact.size {
        return false;
      }
      if artifact.hash(part.value.data) != artifact.digest {
        RemovePart();
        return false;
      }
      target, part := part, None;
      seen := seen + [part];
      stamp := Some(Stamp(artifact.digest, artifact.size, target.value.mtime));
      return true;
    }

    /** The body of a response, chunk by chunk, appended to what the mode left. */
    method Receive(start: Data, chunks: seq<Data>) returns (fits: bool)
      modifies this`part, this`clock, this`seen
      ensures part.Some? && start <= part.value.data <= start + Concat(chunks)
      ensures fits <==> |start + Concat(chunks)| <= artifact.size || chunks == []
      ensures fits ==> part.value.data == start + Concat(chunks)
      ensures start + Concat(chunks) <= content ==> AlwaysPrefix()
    {
      SetPart(start);
      var i := 0;
      fits := true;
      ghost var all := start + Concat(chunks);
      assert chunks[0..] == chunks;
      while i < |chunks|
        invariant i <= |chunks| && part.Some?
        invariant start <= part.value.data && part.value.data + Concat(chunks[i..]) == all
        invariant i > 0 ==> |part.value.data| <= artifact.size
        invariant all <= content ==> AlwaysPrefix()
      {
        ghost var before := part.value.data;
        SetPart(part.value.data + chunks[i]);
        assert part.value.data + Concat(chunks[i + 1..]) == before + (chunks[i] + Concat(chunks[i + 1..]));
        if |part.value.data| > artifact.size {
          return false;
        }
        i := i + 1;
      }
    }

    /** A body that is refused: another status, a range that does not go on where the partial
        file ends or is of another artifact, or more bytes than the artifact has. */
    predicate Refuses(r: Response)
      reads this
    {
      r.Body? &&
      (|| r.status !in {200, 206}
       || (r.status == 206 &&
             (|| r.range.None? || r.range.value.start != PartSize() || r.range.value.last < PartSize()
              || (r.range.value.total.Some? && r.range.value.total.value != artifact.size)))
       || (r.chunks != [] && |Resumed(r)| + |Concat(r.chunks)| > artifact.size))
    }

    /** What the bytes of a response are appended to. */
    function Resumed(r: Response): Data
      reads this
    {
      if r.Body? && r.status == 206 && part.Some? then part.value.data else []
    }

    /** One request from where the partial file ends. */
    method DownloadOnce(r: Response) returns (result: Progress)
      requires PartSize() <= artifact.size
      modifies this`part, this`clock, this`seen
      ensures r.HttpError? || r.Broken? ==> part == old(part) && seen == old(seen)
      ensures if r.HttpError? then result == Ended(r.code) else !result.Ended?
      ensures result.Fatal? <==> old(Refuses(r))
      ensures result.Received? <==> r.Body? && r.clean && !old(Refuses(r))
      ensures result.Received? || (result.Retry? && r.Body?) ==>
                && r.Body? && r.clean == result.Received? && (r.status == 200 || RangeAccepted(r.range, old(PartSize()), artifact.size))
                && part.Some? && part.value.data == old(Resumed(r)) + Concat(r.chunks)
      ensures HonestResponse(r, old(PartSize()), content) && old(PrefixOf(part, content)) && |content| == artifact.size
              && Harmless(r, old(PartSize()), artifact.size) ==>
                !result.Fatal? && PartSize() <= artifact.size
      ensures HonestResponse(r, old(PartSize()), content) && old(PrefixOf(part, content)) ==> AlwaysPrefix()
      ensures HonestResponse(r, old(PartSize()), content) && old(PrefixOf(part, content)) && Whole(r, old(PartSize()), artifact.size) ==>
                result == Received && part.Some? && part.value.data <= content && |part.value.data| == artifact.size
    {
      match r {
        case HttpError(code) => return Ended(code);
        case Broken => return Retry;
        case Body(status, range, chunks, clean) =>
          var start := PartSize();
          var kept: Data := [];
          if status == 206 {
            if !RangeAccepted(range, start, artifact.size) {
              return Fatal;
            }
            if part.Some? {
              kept := part.value.data;
            }
          } else if status != 200 {
            return Fatal;
          }
          ResumeIsPrefix(r, start, kept, content);
          var fits := Receive(kept, chunks);
          return if !fits then Fatal else if clean then Received else Retry;
      }
    }

    /** One turn of the retry loop; no outcome means that it goes on. */
    method TryOnce(response: Response, free: nat) returns (outcome: Option<Outcome>)
      requires target.None? && PartSize() <= artifact.size && PartSize() < Max1(artifact.size)
      modifies this`target, this`part, this`stamp, this`clock, this`seen, this`starts
      ensures starts == old(starts) + [old(PartSize())]
      ensures outcome == Some(Installed) ==> Verified(target, artifact)
      ensures outcome != Some(Installed) ==> target.None?
      ensures outcome.None? ==> PartSize() <= artifact.size && PartSize() < Max1(artifact.size)
      ensures outcome.None? ==> PartSize() == NextSize(response, old(PartSize()), artifact.size)
      ensures artifact.size - old(PartSize()) > free ==> outcome == Some(Raised) && part == old(part)
      ensures response.HttpError? && 400 <= response.code < 500 && response.code != 416 ==> outcome == Some(Raised) && part == old(part)
      ensures old(Refuses(response)) ==> outcome == Some(Raised)
      ensures HonestResponse(response, old(PartSize()), content) && old(PrefixOf(part, content)) ==> AlwaysPrefix()
      ensures HonestResponse(response, old(PartSize()), content) && old(PrefixOf(part, content)) && IsArtifact(content)
              && artifact.size <= free && Whole(response, old(PartSize()), artifact.size) ==>
                outcome == Some(Installed)
      ensures HonestResponse(response, old(PartSize()), content) && old(PrefixOf(part, content)) && IsArtifact(content)
              && artifact.size <= free && Harmless(response, old(PartSize()), artifact.size) ==>
                outcome != Some(Raised)
    {
      starts := starts + [PartSize()];
      if artifact.size - PartSize() > free {
        return Some(Raised);
      }
      var result := DownloadOnce(response);
      if result.Fatal? {
        return Some(Raised);
      }
      if result.Ended? {
        if result.code == 416 {
          RemovePart();
        } else if 400 <= result.code < 500 {
          return Some(Raised);
        }
      }
      if PartSize() > artifact.size {
        RemovePart();
        return Some(Raised);
      }
      IsPrefixEqual(part, content);
      var ok := Finish();
      return if ok then Some(Installed) else None;
    }

    predicate IsArtifact(content: Data) {
      |content| == artifact.size && artifact.hash(content) == artifact.digest
    }

    /** _ensure_download: `server` answers the requests, `free` is the disk space. */
    method EnsureDownload(server: Server, free: nat) returns (r: Outcome)
      modifies this
      ensures r == Installed ==> target.Some? && |target.value.data| == artifact.size
      ensures r == Installed ==> Verified(target, artifact) || (target == old(target) && StampCurrent(target, old(stamp), artifact))
      ensures r == Installed && old(Truthful(target, stamp, artifact)) ==> Verified(target, artifact)
      ensures old(Truthful(target, stamp, artifact)) ==> Truthful(target, stamp, artifact)
      ensures old(starts) <= starts && |starts| <= |old(starts)| + 4
      ensures forall k | |old(starts)| <= k < |starts| :: starts[k] < Max1(artifact.size)
      ensures |starts| > |old(starts)| ==>
                var kept := old(Kept(target, part));
                starts[|old(starts)|] == if kept.None? || |kept.value.data| == artifact.size then 0 else |kept.value.data|
      ensures Resumes(server, starts[|old(starts)|..], artifact.size)
      ensures Honest(server, content) && old(Resumable(content)) ==> AlwaysPrefix()
      ensures Honest(server, content) && old(Resumable(content)) && Cooperative(server, content, free) ==> r == Installed
    {
      ghost var hopeful := Honest(server, content) && Resumable(content);
      var ok := TargetVerified();
      if ok {
        return Installed;
      }
      Prepare();
      ok := Finish();
      if ok {
        return Installed;
      }
      r := DownloadInAttempts(server, free);
    }

    /** The retry loop. */
    method DownloadInAttempts(server: Server, free: nat) returns (r: Outcome)
      requires target.None? && PartSize() < Max1(artifact.size) && PartSize() <= artifact.size
      modifies this
      ensures if r == Installed then Verified(target, artifact) else target.None?
      ensures old(starts) <= starts && 1 <= |starts| - |old(starts)| <= 4 && starts[|old(starts)|] == old(PartSize())
      ensures forall k | |old(starts)| <= k < |starts| :: starts[k] < Max1(artifact.size)
      ensures Resumes(server, starts[|old(starts)|..], artifact.size)
      ensures Honest(server, content) && old(PrefixOf(part, content)) ==> AlwaysPrefix()
      ensures Honest(server, content) && old(PrefixOf(part, content)) && Cooperative(server, content, free) ==> r == Installed
    {
      ghost var hopeful := Honest(server, content) && PrefixOf(part, content);
      var attempt := 1;
      ghost var mine: seq<nat> := [];
      ghost var turn := if Cooperative(server, content, free) then (var k :| Succeeds(server, k); k) else 0;
      while attempt <= Attempts
        invariant 1 <= attempt <= Attempts + 1
        invariant target.None?
        invariant PartSize() < Max1(artifact.size) && PartSize() <= artifact.size
        invariant forall k | 0 <= k < |mine| :: mine[k] < Max1(artifact.size)
        invariant Resumes(server, mine + [PartSize()], artifact.size) && (mine + [PartSize()])[0] == old(PartSize())
        invariant starts == old(starts) + mine && |mine| == attempt - 1
        invariant hopeful ==> AlwaysPrefix()
        invariant hopeful && Cooperative(server, content, free) ==> attempt <= turn && Succeeds(server, turn)
      {
        ghost var start := PartSize();
        var outcome := TryOnce(server(attempt, PartSize()), free);
        mine := mine + [start];
        assert starts[|old(starts)|..] == mine;
        if outcome.Some? {
          return outcome.value;
        }
        ResumesOn(server, mine, PartSize(), artifact.size);
        attempt := attempt + 1;
      }
      assert starts[|old(starts)|..] == mine && (mine + [PartSize()])[..|mine|] == mine;
      return Raised;
    }

    /** One of the four attempts is answered completely, and until then every answer is
        an interruption: no response, a part of the body, a body cut off, or an error
        that is worth another try. */
    ghost predicate Succeeds(server: Server, k: nat) {
      && 1 <= k <= Attempts
      && (forall start :: Whole(server(k, start), start, artifact.size))
      && forall j, start | 1 <= j < k :: Harmless(server(j, start), start, artifact.size)
    }

    /** The content is the artifact, it fits on the disk, and some attempt succeeds. */
    ghost predicate Cooperative(server: Server, content: Data, free: nat) {
      IsArtifact(content) && artifact.size <= free && exists k :: Succeeds(server, k)
    }

    /** What an earlier launch may have left: prefixes of the artifact. */
    predicate Resumable(content: Data)
      reads this
    {
      PrefixOf(part, content) && (part.None? ==> PrefixOf(target, content))
    }
  }

  /** Where the next attempt starts: after what has arrived so far; from the beginning when
      the range was refused, or when everything arrived but is not the artifact. */
  function NextSize(r: Response, start: nat, size: nat): nat {
    match r
    case HttpError(code) => if code == 416 then 0 else start
    case Broken => start
    case Body(status, _, chunks, _) =>
      var reached := (if status == 206 then start else 0) + |Concat(chunks)|;
      if reached == size then 0 else reached
  }

  /** Each attempt starts where the one before left off. */
  predicate Resumes(server: Server, sizes: seq<nat>, size: nat) {
    forall k | 0 <= k < |sizes| - 1 :: sizes[k + 1] == NextSize(server(k + 1, sizes[k]), sizes[k], size)
  }

  lemma ResumesOn(server: Server, sizes: seq<nat>, next: nat, size: nat)
    requires sizes != [] && Resumes(server, sizes, size)
    requires next == NextSize(server(|sizes|, sizes[|sizes| - 1]), sizes[|sizes| - 1], size)
    ensures Resumes(server, sizes + [next], size)
  {
  }

  function Max1(n: nat): nat { if n < 1 then 1 else n }

  lemma IsPrefixEqual(part: Option<FileState>, content: Data)
    ensures part.Some? && part.value.data <= content && |part.value.data| == |content| ==> part.value.data == content
  {
  }

  datatype Progress = Received | Retry | Ended(code: nat) | Fatal

  /** Honest bytes appended to a prefix give a prefix, resumed or restarted. */
  lemma ResumeIsPrefix(r: Response, start: nat, kept: Data, content: Data)
    requires r.Body? && ((r.status == 206 && |kept| == start) || (r.status == 200 && kept == []))
    ensures HonestResponse(r, start, content) && kept <= content ==> kept + Concat(r.chunks) <= content
  {
    if HonestResponse(r, start, content) && kept <= content && r.status == 206 {
      assert content == kept + content[start..];
    }
  }
}
