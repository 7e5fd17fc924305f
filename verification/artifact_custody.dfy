/** Private custody of one signed APK per job: prepare, stream, promote, abandon, reconcile.

    The directory is a map from names to bytes. How each coming system call goes is read
    from `luck` (zero fails; a write stores at most that many bytes), what befalls each blocking
    step from `submissions`: everything the executor thread and the event loop do to its outcome,
    and whether the caller is cancelled meanwhile. Every theorem is for all of them. The ghost
    `trail` keeps every state the directory has been in and ends in the present one, so a crash
    at any moment is covered. */
module ArtifactCustody {
  import opened Wrappers
  import W = WorkerArbitration

  type ExecId = nat
  type Bytes = seq<bv8>
  type Digest = nat

  datatype Name = Part(id: ExecId) | Ready(id: ExecId) | Stray(text: string)

  datatype Contract = Contract(size: nat, sha: Digest)

  datatype Code =
    | PathInvalid | ReadyInvalid | BusyCode | RedirectInvalid | HttpStatus | ResponseInvalid | TooLarge
    | SizeMismatch | DigestMismatch | Timeout | DownloadFailed | IoFailed

  /** A custody error, or the caller's cancellation. */
  datatype Failure = Custody(code: Code) | Cancelled

  const MAX_APK_BYTES := 64 * 1024 * 1024
  const STREAM_CHUNK_BYTES := 64 * 1024
  const MAX_REDIRECTS := 3

  /** Whether the caller is cancelled while it waits for a blocking step, and by what. */
  datatype Interrupt = Undisturbed | ByDeadline | FromOutside

  /** One blocking step handed to the executor. */
  datatype Submission = Submission(attempts: seq<W.Attempt>, interrupt: Interrupt)

  /** Left alone: it runs to its end. */
  const PLAIN := Submission([W.Claim, W.Complete], Undisturbed)

  /** The submission that comes next; a step not spoken of is left alone. */
  function Coming(submissions: seq<Submission>): Submission {
    if submissions == [] then PLAIN else submissions[0]
  }

  /** Whether the caller is cancelled before a step submitted until it runs has run. */
  predicate InterruptedUntilRun(submissions: seq<Submission>) {
    submissions != []
    && (submissions[0].interrupt != Undisturbed
        || (!W.Executed(submissions[0].attempts) && InterruptedUntilRun(submissions[1..])))
  }

  /** What the download meets at one URL. */
  datatype Reply =
    | Redirects(trusted: bool) | BadStatus | BadHeaders(code: Code) | Streams(chunks: seq<Bytes>, end: StreamEnd)

  datatype StreamEnd = Complete | TimesOut | Breaks | Stops

  type Files = map<Name, Bytes>

  predicate Matches(hash: Bytes -> Digest, c: Contract, body: Bytes) {
    |body| == c.size && hash(body) == c.sha
  }

  /** Every ready name holds exactly the bytes its contract signed. */
  ghost predicate ReadyGood(hash: Bytes -> Digest, contractOf: ExecId -> Contract, files: Files) {
    forall n :: n in files && n.Ready? ==> Matches(hash, contractOf(n.id), files[n])
  }

  /** Only the two names of one job may differ. */
  ghost predicate OthersSame(a: Files, b: Files, id: ExecId) {
    forall n :: n != Part(id) && n != Ready(id) ==> Lookup(a, n) == Lookup(b, n)
  }

  /** `b` is `a` without some of `names`. */
  ghost predicate Lost(a: Files, b: Files, names: set<Name>) {
    && b.Keys <= a.Keys && (forall n :: n in b ==> b[n] == a[n])
    && (forall n :: n in a && n !in b ==> n in names)
  }

  /** The states the directory has been in, `files` being the last. */
  ghost predicate Traced(hash: Bytes -> Digest, contractOf: ExecId -> Contract, trail: seq<Files>, files: Files) {
    trail != [] && trail[|trail| - 1] == files && forall m :: m in trail ==> ReadyGood(hash, contractOf, m)
  }

  /** Every wait for a step ends. */
  ghost predicate Planned(submissions: seq<Submission>) {
    forall s :: s in submissions ==> W.Settled(s.attempts)
  }

  // ----- what is answered when nothing goes wrong around the call -----

  /** Re-reading a file whose size or digest is not the signed one. */
  function Hashed(hash: Bytes -> Digest, c: Contract, body: Bytes, code: Code): Result<(), Code> {
    if |body| == c.size && |body| <= 67108864 && hash(body) == c.sha then Ok(()) else Err(code)
  }

  /** Reuse the ready file, refuse the remains of an earlier call, or start anew. */
  function Prepared(hash: Bytes -> Digest, c: Contract, files: Files, id: ExecId): Result<bool, Code> {
    if Ready(id) in files then
      if Part(id) in files then Err(PathInvalid)
      else if Hashed(hash, c, files[Ready(id)], ReadyInvalid).Ok? then Ok(false) else Err(ReadyInvalid)
    else if Part(id) in files then Err(BusyCode)
    else Ok(true)
  }

  function FromCustody<T>(r: Result<T, Code>): Result<T, Failure> {
    match r
    case Ok(v) => Ok(v)
    case Err(e) => Err(Custody(e))
  }

  function FromPrepared(r: Result<bool, Code>): Result<(), Failure> {
    match r
    case Ok(_) => Ok(())
    case Err(e) => Err(Custody(e))
  }

  /** The chunks together. */
  function Concat(chunks: seq<Bytes>): Bytes {
    if chunks == [] then [] else Concat(chunks[..|chunks| - 1]) + chunks[|chunks| - 1]
  }

  /** All that fits is taken to its end; the first chunk too many is refused. */
  ghost predicate StreamAnswers(size: nat, chunks: seq<Bytes>, end: StreamEnd, r: Result<Bytes, Failure>) {
    if |Concat(chunks)| <= size && |Concat(chunks)| <= 67108864 then
      r == match end {
             case Complete => Ok(Concat(chunks))
             case TimesOut => Err(Custody(Timeout))
             case Breaks => Err(Custody(DownloadFailed))
             case Stops => Err(Cancelled)
           }
    else
      exists k :: 0 <= k < |chunks| && Overruns(size, chunks, k)
        && r == Err(Custody(if |Concat(chunks[..k + 1])| > 67108864 then TooLarge else SizeMismatch))
  }

  ghost predicate Overruns(size: nat, chunks: seq<Bytes>, k: nat)
    requires k < |chunks|
  {
    && |Concat(chunks[..k])| <= size && |Concat(chunks[..k])| <= 67108864
    && (|Concat(chunks[..k + 1])| > size || |Concat(chunks[..k + 1])| > 67108864)
  }

  /** The first reply from `i` on that is no redirect to a trusted place, or the fourth redirect. */
  function Landing(web: seq<Reply>, i: nat): nat
    decreases |web| - i
  {
    if i < |web| && i < 3 && web[i] == Redirects(true) then Landing(web, i + 1) else i
  }

  /** What following the redirects comes to. */
  ghost predicate FetchAnswers(size: nat, web: seq<Reply>, r: Result<Bytes, Failure>) {
    var k := Landing(web, 0);
    if k >= |web| then r == Err(Custody(DownloadFailed))
    else
      match web[k]
      case Redirects(_) => r == Err(Custody(RedirectInvalid))
      case BadStatus => r == Err(Custody(HttpStatus))
      case BadHeaders(code) => r == Err(Custody(code))
      case Streams(chunks, end) => StreamAnswers(size, chunks, end, r)
  }

  /** The bytes streamed in the end. */
  function Sent(web: seq<Reply>): Bytes {
    var k := Landing(web, 0);
    if k < |web| && web[k].Streams? then Concat(web[k].chunks) else []
  }

  /** A complete stream of just the signed bytes is received; every single defect has its error. */
  ghost predicate Received(hash: Bytes -> Digest, c: Contract, web: seq<Reply>, r: Result<(), Failure>) {
    if FetchAnswers(c.size, web, Ok(Sent(web))) then
      r == if |Sent(web)| != c.size then Err(Custody(SizeMismatch))
           else if hash(Sent(web)) != c.sha then Err(Custody(DigestMismatch))
           else Ok(())
    else r.Err? && FetchAnswers(c.size, web, Err(r.error))
  }

  /** At most three trusted redirects, then a complete stream of the signed bytes: it is received. */
  lemma SignedIsReceived(hash: Bytes -> Digest, c: Contract, web: seq<Reply>, k: nat, chunks: seq<Bytes>,
                         r: Result<(), Failure>)
    requires k < |web| && k <= 3 && (forall i :: 0 <= i < k ==> web[i] == Redirects(true))
    requires web[k] == Streams(chunks, Complete) && Matches(hash, c, Concat(chunks)) && c.size <= 67108864
    requires Received(hash, c, web, r)
    ensures r == Ok(()) && Sent(web) == Concat(chunks)
  {
    LandsAt(web, k, 0);
  }

  lemma {:induction false} LandsAt(web: seq<Reply>, k: nat, i: nat)
    requires i <= k < |web| && k <= 3 && (forall j :: 0 <= j < k ==> web[j] == Redirects(true))
    requires web[k] == Redirects(true) ==> k == 3
    ensures Landing(web, i) == k
    decreases k - i
  {
    if i < k { LandsAt(web, k, i + 1); }
  }

  lemma ChunksGrow(chunks: seq<Bytes>, i: nat)
    requires i < |chunks|
    ensures Concat(chunks[..i + 1]) == Concat(chunks[..i]) + chunks[i]
  {
    assert chunks[..i + 1][..i] == chunks[..i];
  }

  /** A part is no longer than the whole. */
  lemma {:induction false} PartOfChunks(chunks: seq<Bytes>, i: nat)
    requires i <= |chunks|
    ensures |Concat(chunks[..i])| <= |Concat(chunks)|
    decreases |chunks|
  {
    if i == |chunks| {
      assert chunks[..i] == chunks;
    } else {
      PartOfChunks(chunks[..|chunks| - 1], i);
      assert chunks[..|chunks| - 1][..i] == chunks[..i];
    }
  }

  lemma LostIsLocal(a: Files, b: Files, id: ExecId)
    requires Lost(a, b, {Part(id)})
    ensures OthersSame(a, b, id)
  {}

  lemma SameFiles(a: Files, b: Files)
    requires forall n :: Lookup(a, n) == Lookup(b, n)
    ensures a == b
  {
    forall n ensures n in a <==> n in b {
      assert Lookup(a, n) == Lookup(b, n);
    }
    forall n | n in a ensures a[n] == b[n] {
      assert Lookup(a, n) == Lookup(b, n);
    }
  }

  lemma PlainRuns()
    ensures W.Settled(PLAIN.attempts) && W.Executed(PLAIN.attempts)
  {
    assert PLAIN.attempts[..1] == [W.Claim];
    assert W.After(W.FRESH, [W.Claim]) == W.After1(W.FRESH, W.Claim);
  }

  function Least(a: nat, b: nat): nat { if a < b then a else b }

  class CustodyDirectory {
    const hash: Bytes -> Digest
    const contractOf: ExecId -> Contract
    var files: Files
    var luck: seq<nat>
    var submissions: seq<Submission>
    var abandonments: nat
    ghost var trail: seq<Files>

    ghost predicate Valid()
      reads this
    {
      ReadyGood(hash, contractOf, files) && Traced(hash, contractOf, trail, files) && Planned(submissions)
    }

    /** Every system call works and every step runs undisturbed. */
    ghost predicate Calm()
      reads this
    {
      luck == [] && forall s :: s in submissions ==> W.Executed(s.attempts) && s.interrupt == Undisturbed
    }

    /** A directory whose ready names are good, and a future for every step. */
    constructor (hash: Bytes -> Digest, contractOf: ExecId -> Contract, files: Files, luck: seq<nat>,
                 submissions: seq<Submission>)
      requires ReadyGood(hash, contractOf, files) && Planned(submissions)
      ensures Valid() && this.files == files && trail == [files] && abandonments == 0
      ensures this.hash == hash && this.contractOf == contractOf && this.luck == luck && this.submissions == submissions
    {
      this.hash, this.contractOf, this.files := hash, contractOf, files;
      this.luck, this.submissions, abandonments, trail := luck, submissions, 0, [files];
    }

    // ----- system calls -----

    method Call() returns (works: nat)
      modifies this`luck
      ensures |luck| <= |old(luck)|
      ensures old(luck) == [] ==> works == 1 && luck == []
    {
      if luck == [] { return 1; }
      works := luck[0];
      luck := luck[1..];
    }

    method Put(n: Name, body: Bytes)
      requires Valid() && (n.Ready? ==> Matches(hash, contractOf(n.id), body))
      modifies this`files, this`trail
      ensures old(trail) <= trail
      ensures Valid() && files == old(files)[n := body]
    {
      files := files[n := body];
      trail := trail + [files];
    }

    method Unlink(n: Name) returns (ok: bool)
      requires Valid()
      modifies this`files, this`luck, this`trail
      ensures old(trail) <= trail
      ensures Valid() && files == if ok then old(files) - {n} else old(files)
      ensures old(luck) == [] ==> ok && luck == []
    {
      var works := Call();
      ok := works > 0;
      if ok {
        files := files - {n};
        trail := trail + [files];
      }
    }

    /** The kernel's rename: the new name appears and the old one goes in one step. */
    method Publish(id: ExecId) returns (ok: bool)
      requires Valid() && Part(id) in files && Matches(hash, contractOf(id), files[Part(id)])
      modifies this`files, this`luck, this`trail
      ensures old(trail) <= trail
      ensures Valid()
      ensures files == if ok then old(files)[Ready(id) := old(files)[Part(id)]] - {Part(id)} else old(files)
      ensures old(luck) == [] ==> ok && luck == []
    {
      var works := Call();
      ok := works > 0;
      if ok {
        files := files[Ready(id) := files[Part(id)]] - {Part(id)};
        trail := trail + [files];
      }
    }

    // ----- reading back -----

    /** Re-reads one file in chunks; it succeeds only on the contract's exact size and digest. */
    method HashOpenFile(n: Name, c: Contract, code: Code) returns (r: Result<(), Code>)
      modifies this`luck
      ensures r.Ok? ==> n in files && Matches(hash, c, files[n])
      ensures r.Err? ==> r.error == IoFailed || r.error == PathInvalid || r.error == code
      ensures old(luck) == [] && n in files ==> luck == [] && r == Hashed(hash, c, files[n], code)
    {
      var openOk := Call();
      if openOk == 0 || n !in files { return Err(IoFailed); }
      var isPrivate := Call();
      if isPrivate == 0 { return Err(PathInvalid); }
      var body := files[n];
      if |body| != c.size { return Err(code); }
      var read: Bytes := [];
      while |read| < |body|
        invariant |read| <= |body| && read == body[..|read|] && |read| <= MAX_APK_BYTES
        invariant old(luck) == [] ==> luck == []
        decreases |body| - |read|
      {
        var got := Call();
        if got == 0 { return Err(IoFailed); }
        var take := Least(Least(got, STREAM_CHUNK_BYTES), |body| - |read|);
        if |read| + take > MAX_APK_BYTES { return Err(code); }
        read := read + body[|read|..|read| + take];
      }
      assert read == body;
      if hash(read) != c.sha { return Err(code); }
      var closed := Call();
      if closed == 0 { return Err(IoFailed); }
      r := Ok(());
    }

    // ----- preparing -----

    /** Ok(true) opened a new partial, Ok(false) found a valid ready file. `made` tells whether a
        partial was created at all, `discarded` whether, on an error, it was taken back. */
    method PrepareDestination(id: ExecId) returns (r: Result<bool, Code>, made: bool, discarded: bool)
      requires Valid()
      modifies this`files, this`luck, this`trail
      ensures old(trail) <= trail
      ensures Valid() && OthersSame(old(files), files, id)
      ensures r == Ok(true) ==> made && !discarded && files == old(files)[Part(id) := []]
      ensures r == Ok(false) ==> !made && Ready(id) in files && Part(id) !in files
      ensures made ==> Part(id) !in old(files) && Ready(id) !in old(files)
      ensures !made || discarded ==> files == old(files)
      ensures discarded ==> made && r.Err? && Part(id) !in files
      ensures made && !discarded ==> files == old(files) || files == old(files)[Part(id) := []]
      ensures old(luck) == [] ==>
        luck == [] && r == Prepared(hash, contractOf(id), old(files), id) && (made <==> r == Ok(true))
    {
      made, discarded := false, false;
      r := Examine(id);
      if r != Ok(true) {
        var closed := Call();
        if closed == 0 { r := Err(IoFailed); }
        return;
      }
      var opens := Call();
      if opens == 0 {
        r := Err(IoFailed);
        return;
      }
      made := true;
      r, discarded := OpenPartial(id);
    }

    /** A new partial is created and checked; one that fails a check is taken back if possible. */
    method OpenPartial(id: ExecId) returns (r: Result<bool, Code>, discarded: bool)
      requires Valid() && Part(id) !in files && Ready(id) !in files
      modifies this`files, this`luck, this`trail
      ensures old(trail) <= trail
      ensures Valid() && (discarded ==> r.Err? && files == old(files))
      ensures r.Ok? ==> r.value && files == old(files)[Part(id) := []]
      ensures !discarded ==> files == old(files) || files == old(files)[Part(id) := []]
      ensures old(luck) == [] ==> luck == [] && r == Ok(true)
    {
      Put(Part(id), []);
      ghost var grown := files;
      assert grown - {Part(id)} == old(files);
      r, discarded := Ok(true), false;
      var isPrivate := Call();
      if isPrivate == 0 {
        var error := DiscardPartial(id);
        r, discarded := Err(if error.Some? then error.value else PathInvalid), error.None?;
        var _ := Call();
        return;
      }
      var closed := Call();
      if closed == 0 {
        r := Err(IoFailed);
        var reopened := Call();
        if reopened > 0 {
          var error := DiscardPartial(id);
          discarded := error.None?;
        }
      }
    }

    /** Whether a new partial may be created. */
    method Examine(id: ExecId) returns (r: Result<bool, Code>)
      modifies this`luck
      ensures r == Ok(true) ==> Part(id) !in files && Ready(id) !in files
      ensures r == Ok(false) ==>
        Ready(id) in files && Part(id) !in files && Matches(hash, contractOf(id), files[Ready(id)])
      ensures Ready(id) !in files && Part(id) in files ==>
        r == Err(BusyCode) || r == Err(PathInvalid) || r == Err(IoFailed)
      ensures old(luck) == [] ==> luck == [] && r == Prepared(hash, contractOf(id), files, id)
    {
      var status := Call();
      if status == 0 { return Err(IoFailed); }
      if Ready(id) in files {
        var isPrivate := Call();
        if isPrivate == 0 || Part(id) in files { return Err(PathInvalid); }
        var hashed := HashOpenFile(Ready(id), contractOf(id), ReadyInvalid);
        if hashed.Err? { return Err(hashed.error); }
        return Ok(false);
      }
      if Part(id) in files {
        var isPrivate := Call();
        return Err(if isPrivate == 0 then PathInvalid else BusyCode);
      }
      r := Ok(true);
    }

    /** Close and unlink the partial just created. */
    method DiscardPartial(id: ExecId) returns (error: Option<Code>)
      requires Valid()
      modifies this`files, this`luck, this`trail
      ensures old(trail) <= trail
      ensures Valid() && (files == old(files) || files == old(files) - {Part(id)})
      ensures error.None? ==> Part(id) !in files
      ensures old(luck) == [] ==> luck == [] && error.None?
    {
      var status := Call();
      if status == 0 { return Some(IoFailed); }
      var closed := Call();
      if Part(id) in files {
        var gone := Unlink(Part(id));
        if !gone { return Some(IoFailed); }
        var synced := Call();
        if synced == 0 { return Some(IoFailed); }
      }
      error := if closed == 0 then Some(IoFailed) else None;
    }

    // ----- streaming -----

    /** Appends all of `body` however short the writes, or fails having appended a prefix. */
    method WriteAll(id: ExecId, body: Bytes) returns (ok: bool)
      requires Valid() && Part(id) in files
      modifies this`files, this`luck, this`trail
      ensures old(trail) <= trail
      ensures Valid() && Part(id) in files
      ensures ok ==> files == old(files)[Part(id) := old(files)[Part(id)] + body]
      ensures !ok ==> exists k :: 0 <= k <= |body| && files == old(files)[Part(id) := old(files)[Part(id)] + body[..k]]
      ensures old(luck) == [] ==> luck == [] && ok
    {
      var done := 0;
      ghost var start := files;
      assert start[Part(id)] + body[..0] == start[Part(id)];
      while done < |body|
        invariant 0 <= done <= |body| && Valid() && old(trail) <= trail && Part(id) in start
        invariant files == start[Part(id) := start[Part(id)] + body[..done]]
        invariant old(luck) == [] ==> luck == []
        decreases |body| - done
      {
        var written := Call();
        if written == 0 { return false; }
        var take := Least(written, |body| - done);
        assert start[Part(id)] + body[..done] + body[done..done + take] == start[Part(id)] + body[..done + take];
        Put(Part(id), files[Part(id)] + body[done..done + take]);
        done := done + take;
      }
      assert body[..done] == body;
      ok := true;
    }

    method FinishFile() returns (ok: bool)
      modifies this`luck
      ensures old(luck) == [] ==> luck == [] && ok
    {
      var synced := Call();
      var closed := Call();
      ok := synced > 0 && closed > 0;
    }

    // ----- promoting -----

    /** Re-hashes the partial and publishes it; a failure after publication takes the ready name back. */
    method PromotePartial(id: ExecId) returns (r: Result<(), Code>)
      requires Valid()
      modifies this`files, this`luck, this`trail
      ensures old(trail) <= trail
      ensures Valid() && OthersSame(old(files), files, id)
      ensures r.Ok? ==> Part(id) !in files && Ready(id) in files
      ensures r.Ok? ==> Lookup(files, Ready(id)) == Lookup(old(files), Part(id))
      ensures Part(id) in files ==> Lookup(files, Part(id)) == Lookup(old(files), Part(id))
      ensures old(luck) == [] && Part(id) in old(files) && Ready(id) !in old(files) ==>
        luck == [] && r == Hashed(hash, contractOf(id), old(files)[Part(id)], DigestMismatch)
        && files == if r.Ok? then old(files)[Ready(id) := old(files)[Part(id)]] - {Part(id)} else old(files)
    {
      var status := Call();
      if status == 0 || Part(id) !in files { return Err(IoFailed); }
      var isPrivate := Call();
      if isPrivate == 0 || Ready(id) in files { return Err(PathInvalid); }
      var hashed := HashOpenFile(Part(id), contractOf(id), DigestMismatch);
      if hashed.Err? { return Err(hashed.error); }
      var renamed := Publish(id);
      if !renamed { return Err(IoFailed); }
      assert old(luck) == [] ==> |files[Ready(id)]| <= 67108864;
      r := ConfirmPublished(id);
    }

    /** A published file is made durable and read back; a failure takes the ready name back. */
    method ConfirmPublished(id: ExecId) returns (r: Result<(), Code>)
      requires Valid() && Ready(id) in files
      modifies this`files, this`luck, this`trail
      ensures old(trail) <= trail
      ensures Valid() && (files == old(files) || (r.Err? && files == old(files) - {Ready(id)}))
      ensures old(luck) == [] && |old(files)[Ready(id)]| <= 67108864 ==>
        luck == [] && r == Ok(()) && files == old(files)
    {
      var synced := Call();
      if synced == 0 {
        r := Withdraw(id, IoFailed);
        return;
      }
      var again := HashOpenFile(Ready(id), contractOf(id), ReadyInvalid);
      if again.Err? {
        r := Withdraw(id, again.error);
        return;
      }
      var closed := Call();
      r := if closed == 0 then Err(IoFailed) else Ok(());
    }

    method Withdraw(id: ExecId, code: Code) returns (r: Result<(), Code>)
      requires Valid()
      modifies this`files, this`luck, this`trail
      ensures old(trail) <= trail
      ensures Valid() && r.Err? && (files == old(files) || files == old(files) - {Ready(id)})
    {
      r := Err(code);
      if Ready(id) in files {
        var isPrivate := Call();
        if isPrivate == 0 { return Err(PathInvalid); }
        var gone := Unlink(Ready(id));
        if !gone { return Err(IoFailed); }
        var _ := Call();
      }
    }

    // ----- removing -----

    /** Removes the partial, and the ready file too when asked. */
    method RemoveOwnedFiles(id: ExecId, ready: bool) returns (r: Result<(), Code>)
      requires Valid()
      modifies this`files, this`luck, this`trail
      ensures old(trail) <= trail
      ensures Valid() && Lost(old(files), files, if ready then {Part(id), Ready(id)} else {Part(id)})
      ensures r.Ok? ==> Part(id) !in files && (ready ==> Ready(id) !in files)
      ensures old(luck) == [] ==> luck == [] && r.Ok?
    {
      var names := [Part(id)];
      if ready { names := names + [Ready(id)]; }
      var changed, i := false, 0;
      while i < |names|
        invariant 0 <= i <= |names| && Valid() && old(trail) <= trail
        invariant Lost(old(files), files, if ready then {Part(id), Ready(id)} else {Part(id)})
        invariant forall j :: 0 <= j < i ==> names[j] !in files
        invariant old(luck) == [] ==> luck == []
      {
        if names[i] in files {
          var isPrivate := Call();
          if isPrivate == 0 { return Err(PathInvalid); }
          var gone := Unlink(names[i]);
          if !gone { return Err(IoFailed); }
          changed := true;
        }
        i := i + 1;
      }
      assert names[0] !in files && (ready ==> names[1] !in files);
      if changed {
        var synced := Call();
        if synced == 0 { return Err(IoFailed); }
      }
      r := Ok(());
    }

    /** Close, if anything is open, and unlink the partial in the same blocking step. */
    method AbandonPartial(id: ExecId, open: bool) returns (r: Result<(), Code>)
      requires Valid()
      modifies this`files, this`luck, this`trail, this`abandonments
      ensures old(trail) <= trail
      ensures Valid() && Lost(old(files), files, {Part(id)}) && abandonments == old(abandonments) + 1
      ensures r.Ok? ==> Part(id) !in files
      ensures old(luck) == [] ==> luck == [] && r.Ok?
    {
      abandonments := abandonments + 1;
      var closed := 1;
      if open { closed := Call(); }
      r := RemoveOwnedFiles(id, false);
      if r.Ok? && closed == 0 { r := Err(IoFailed); }
    }

    // ----- scheduling -----

    /** Hands one step to the executor and waits until it is settled. */
    method Submit() returns (s: Submission)
      requires Valid()
      modifies this`submissions
      ensures Valid() && W.Settled(s.attempts) && s == Coming(old(submissions))
      ensures submissions == if old(submissions) == [] then [] else old(submissions)[1..]
      ensures old(Calm()) ==> Calm() && W.Executed(s.attempts) && s.interrupt == Undisturbed
    {
      PlainRuns();
      s := Coming(submissions);
      if submissions != [] { submissions := submissions[1..]; }
    }

    /** One submission of abandonment: its body runs as often as the executor ran it. */
    method TryAbandon(id: ExecId, open: bool) returns (s: Submission, ran: Result<(), Code>)
      requires Valid()
      modifies this`files, this`luck, this`trail, this`abandonments, this`submissions
      ensures old(trail) <= trail
      ensures Valid() && Lost(old(files), files, {Part(id)})
      ensures W.Settled(s.attempts) && s == Coming(old(submissions))
      ensures submissions == if old(submissions) == [] then [] else old(submissions)[1..]
      ensures abandonments == old(abandonments) + W.After(W.FRESH, s.attempts).runs
      ensures W.After(W.FRESH, s.attempts).state.Aborted? <==> !W.Executed(s.attempts)
      ensures ran.Ok? ==> Part(id) !in files
      ensures old(Calm()) ==> Calm() && W.Executed(s.attempts) && s.interrupt == Undisturbed && ran.Ok?
    {
      s := Submit();
      W.SettledMeans(s.attempts);
      ran := Err(IoFailed);
      if W.Executed(s.attempts) { ran := AbandonPartial(id, open); }
    }

    /** Submits abandonment again for as long as it is found aborted: it runs exactly once. A
        cancellation met on the way is not forgotten. */
    method CleanupExecutor(id: ExecId, open: bool) returns (r: Result<(), Failure>, swept: bool)
      requires Valid()
      modifies this`files, this`luck, this`trail, this`abandonments, this`submissions
      ensures old(trail) <= trail
      ensures Valid() && Lost(old(files), files, {Part(id)}) && abandonments == old(abandonments) + 1
      ensures swept ==> Part(id) !in files
      ensures r == Err(Cancelled) <==> InterruptedUntilRun(old(submissions))
      ensures r.Ok? ==> swept
      ensures old(Calm()) ==> Calm() && r.Ok?
    {
      ghost var submitted: seq<seq<W.Attempt>> := [];
      var cancelled, again, ran := false, true, Err(IoFailed);
      while again
        invariant Valid() && old(trail) <= trail && Lost(old(files), files, {Part(id)})
        invariant abandonments == old(abandonments) + W.TotalRuns(submitted)
        invariant forall i :: 0 <= i < |submitted| ==> W.Settled(submitted[i])
        invariant forall i :: 0 <= i < |submitted| ==>
                    (W.After(W.FRESH, submitted[i]).state.Aborted? <==> again || i < |submitted| - 1)
        invariant InterruptedUntilRun(old(submissions)) <==> cancelled || (again && InterruptedUntilRun(submissions))
        invariant !again ==> submitted != [] && (ran.Ok? ==> Part(id) !in files)
        invariant old(Calm()) ==> Calm() && !cancelled && (if again then submitted == [] else ran.Ok?)
        decreases again, |submissions|
      {
        ghost var before, left := submitted, submissions;
        var s;
        s, ran := TryAbandon(id, open);
        submitted := submitted + [s.attempts];
        assert submitted[..|before|] == before;
        cancelled := cancelled || s.interrupt != Undisturbed;
        again := W.After(W.FRESH, s.attempts).state.Aborted?;
        if left == [] { PlainRuns(); }
      }
      W.ExactlyOnce(submitted);
      swept := ran.Ok?;
      r := if cancelled then Err(Cancelled) else if ran.Err? then Err(Custody(ran.error)) else Ok(());
    }

    // ----- one download -----

    /** Preparation under cancellation. A cancelled caller abandons whatever partial there is,
        once the preparation has run; one aborted in the queue ends in cancellation and nothing else.
        `made` tells whether the preparation made the partial, `ran` whether it ran at all, `swept`
        whether the clean-up of what it made worked. */
    method PrepareStep(id: ExecId) returns (r: Result<bool, Failure>, made: bool, ran: bool, swept: bool)
      requires Valid()
      modifies this`files, this`luck, this`trail, this`abandonments, this`submissions
      ensures old(trail) <= trail
      ensures Valid() && OthersSame(old(files), files, id)
      ensures ran <==> W.Executed(Coming(old(submissions)).attempts)
      ensures r == Err(Cancelled) <==> !ran || Coming(old(submissions)).interrupt != Undisturbed
      ensures abandonments == old(abandonments) + (if ran && r == Err(Cancelled) then 1 else 0)
      ensures !ran ==> files == old(files)
      ensures made ==> ran && Part(id) !in old(files) && Ready(id) !in old(files)
      ensures r == Ok(true) ==> made && Part(id) in files && files[Part(id)] == [] && Ready(id) !in files
      ensures r == Ok(false) ==> !made && Ready(id) in files && Part(id) !in files && files == old(files)
      ensures r.Err? && r.error.Custody? && (swept || !made) ==> files == old(files)
      ensures swept ==> Part(id) !in files
      ensures old(Calm()) ==> Calm() && r == FromCustody(Prepared(hash, contractOf(id), old(files), id))
    {
      var s := Submit();
      W.SettledMeans(s.attempts);
      ran, made, swept := W.Executed(s.attempts), false, false;
      var prepared: Result<bool, Code> := Err(IoFailed);
      if ran { prepared, made, swept := PrepareDestination(id); }
      if s.interrupt == Undisturbed {
        r := if !ran then Err(Cancelled)
             else if prepared.Err? then Err(Custody(prepared.error))
             else Ok(prepared.value);
        return;
      }
      r := Err(Cancelled);
      if ran {
        ghost var before := files;
        var _, gone := CleanupExecutor(id, prepared == Ok(true));
        swept := gone;
        LostIsLocal(before, files, id);
      }
    }

    /** Streams the chunks of one response into the partial; `total` is what was digested. */
    method Stream(id: ExecId, chunks: seq<Bytes>, end: StreamEnd) returns (r: Result<Bytes, Failure>)
      requires Valid() && Part(id) in files && files[Part(id)] == [] && Ready(id) !in files
      modifies this`files, this`luck, this`trail, this`submissions
      ensures old(trail) <= trail
      ensures Valid() && OthersSame(old(files), files, id) && Part(id) in files && Ready(id) !in files
      ensures r.Ok? ==> files[Part(id)] == r.value && r.value == Concat(chunks)
      ensures old(Calm()) ==> Calm() && StreamAnswers(contractOf(id).size, chunks, end, r)
    {
      var total: Bytes := [];
      var size := contractOf(id).size;
      var i := 0;
      while i < |chunks|
        invariant 0 <= i <= |chunks| && Valid() && old(trail) <= trail && OthersSame(old(files), files, id)
        invariant Part(id) in files && files[Part(id)] == total && Ready(id) !in files
        invariant total == Concat(chunks[..i]) && |total| <= size && |total| <= MAX_APK_BYTES
        invariant old(Calm()) ==> Calm()
      {
        var next := |total| + |chunks[i]|;
        ChunksGrow(chunks, i);
        PartOfChunks(chunks, i + 1);
        assert next > MAX_APK_BYTES || next > size ==> Overruns(size, chunks, i);
        if next > MAX_APK_BYTES { return Err(Custody(TooLarge)); }
        if next > size { return Err(Custody(SizeMismatch)); }
        var stop := TakeChunk(id, chunks[i]);
        if stop.Some? { return Err(stop.value); }
        total := total + chunks[i];
        i := i + 1;
      }
      assert chunks[..i] == chunks;
      match end {
        case Complete => r := Ok(total);
        case TimesOut => r := Err(Custody(Timeout));
        case Breaks => r := Err(Custody(DownloadFailed));
        case Stops => r := Err(Cancelled);
      }
    }

    /** Writes one chunk in a blocking step of its own, under the overall deadline. */
    method TakeChunk(id: ExecId, chunk: Bytes) returns (stop: Option<Failure>)
      requires Valid() && Part(id) in files
      modifies this`files, this`luck, this`trail, this`submissions
      ensures old(trail) <= trail
      ensures Valid() && OthersSame(old(files), files, id) && Part(id) in files
      ensures Lookup(files, Ready(id)) == Lookup(old(files), Ready(id))
      ensures stop.None? ==> files[Part(id)] == old(files)[Part(id)] + chunk
      ensures old(Calm()) ==> Calm() && stop.None?
    {
      var s := Submit();
      var ok := false;
      if W.Executed(s.attempts) { ok := WriteAll(id, chunk); }
      if s.interrupt == ByDeadline { return Some(Custody(Timeout)); }
      if s.interrupt == FromOutside || !W.Executed(s.attempts) { return Some(Cancelled); }
      stop := if ok then None else Some(Custody(IoFailed));
    }

    /** Follows at most three trusted redirects to one response body. */
    method Fetch(id: ExecId, web: seq<Reply>) returns (r: Result<Bytes, Failure>)
      requires Valid() && Part(id) in files && files[Part(id)] == [] && Ready(id) !in files
      modifies this`files, this`luck, this`trail, this`submissions
      ensures old(trail) <= trail
      ensures Valid() && OthersSame(old(files), files, id) && Part(id) in files && Ready(id) !in files
      ensures r.Ok? ==> files[Part(id)] == r.value
      ensures r.Ok? ==> r.value == Sent(web)
      ensures old(Calm()) ==> Calm() && FetchAnswers(contractOf(id).size, web, r)
    {
      var redirects, i := 0, 0;
      while i < |web|
        invariant 0 <= i == redirects <= |web| && redirects <= MAX_REDIRECTS
        invariant Valid() && files == old(files) && trail == old(trail) && luck == old(luck)
        invariant submissions == old(submissions) && Landing(web, 0) == Landing(web, i)
      {
        match web[i] {
          case Redirects(trusted) =>
            if redirects >= MAX_REDIRECTS || !trusted { return Err(Custody(RedirectInvalid)); }
            redirects := redirects + 1;
          case BadStatus => return Err(Custody(HttpStatus));
          case BadHeaders(code) => return Err(Custody(code));
          case Streams(chunks, end) =>
            r := Stream(id, chunks, end);
            return;
        }
        i := i + 1;
      }
      r := Err(Custody(DownloadFailed));
    }

    /** From an open partial to the ready name; `open` tells whether the file is still open on failure. */
    method Receive(id: ExecId, web: seq<Reply>) returns (r: Result<(), Failure>, open: bool)
      requires Valid() && Part(id) in files && files[Part(id)] == [] && Ready(id) !in files
      modifies this`files, this`luck, this`trail, this`submissions
      ensures old(trail) <= trail
      ensures Valid() && OthersSame(old(files), files, id)
      ensures r.Ok? ==> Part(id) !in files && Lookup(files, Ready(id)) == Some(Sent(web))
      ensures old(Calm()) ==> Calm() && Received(hash, contractOf(id), web, r) && (r.Err? ==> Ready(id) !in files)
    {
      var fetched := Fetch(id, web);
      if fetched.Err? { return Err(fetched.error), true; }
      if |fetched.value| != contractOf(id).size { return Err(Custody(SizeMismatch)), true; }
      if hash(fetched.value) != contractOf(id).sha { return Err(Custody(DigestMismatch)), true; }
      r := FinishAndPromote(id);
      open := false;
    }

    /** Synchronizes and closes the partial, then publishes it. */
    method FinishAndPromote(id: ExecId) returns (r: Result<(), Failure>)
      requires Valid() && Part(id) in files && Ready(id) !in files
      modifies this`files, this`luck, this`trail, this`submissions
      ensures old(trail) <= trail
      ensures Valid() && OthersSame(old(files), files, id)
      ensures r.Ok? ==> Part(id) !in files && Lookup(files, Ready(id)) == Some(old(files)[Part(id)])
      ensures old(Calm()) ==>
        Calm() && r == FromCustody(Hashed(hash, contractOf(id), old(files)[Part(id)], DigestMismatch))
        && (r.Err? ==> files == old(files))
    {
      var finish := Submit();
      var finished := false;
      if W.Executed(finish.attempts) { finished := FinishFile(); }
      if finish.interrupt != Undisturbed || !W.Executed(finish.attempts) { return Err(Cancelled); }
      if !finished { return Err(Custody(IoFailed)); }
      var promote := Submit();
      var promoted: Result<(), Code> := Err(IoFailed);
      if W.Executed(promote.attempts) { promoted := PromotePartial(id); }
      if promote.interrupt != Undisturbed || !W.Executed(promote.attempts) { return Err(Cancelled); }
      r := FromCustody(promoted);
    }

    /** One whole download. `created` tells whether its preparation made the partial, `handed`
        whether the preparation also succeeded, `swept` whether the clean-up worked: the abandonment
        if there was one, else the preparation's own. */
    method Download(id: ExecId, web: seq<Reply>)
      returns (r: Result<(), Failure>, created: bool, handed: bool, swept: bool)
      requires Valid()
      modifies this`files, this`luck, this`trail, this`abandonments, this`submissions
      ensures old(trail) <= trail
      ensures Valid() && OthersSame(old(files), files, id)
      ensures r.Ok? ==> Ready(id) in files && Part(id) !in files && abandonments == old(abandonments)
      ensures r.Ok? ==> Matches(hash, contractOf(id), files[Ready(id)])
      ensures r.Ok? ==> Lookup(files, Ready(id)) == Lookup(old(files), Ready(id)) || files[Ready(id)] == Sent(web)
      ensures swept ==> Part(id) !in files
      ensures handed ==> created
      ensures handed && r.Err? ==> abandonments == old(abandonments) + 1
      ensures created && r == Err(Cancelled) ==> abandonments == old(abandonments) + 1
      ensures created && r.Err? && abandonments == old(abandonments) ==> !handed && (swept ==> files == old(files))
      ensures old(abandonments) <= abandonments <= old(abandonments) + 1
      ensures Ready(id) in old(files) && r.Ok? ==> Lookup(files, Ready(id)) == Lookup(old(files), Ready(id))
      ensures old(Calm()) && Ready(id) !in old(files) && Part(id) !in old(files) ==>
        && Calm() && Received(hash, contractOf(id), web, r)
        && files == (if r.Ok? then old(files)[Ready(id) := Sent(web)] else old(files))
        && abandonments == old(abandonments) + (if r.Ok? then 0 else 1)
      ensures old(Calm()) && (Ready(id) in old(files) || Part(id) in old(files)) ==>
        && Calm() && files == old(files) && abandonments == old(abandonments)
        && r == FromPrepared(Prepared(hash, contractOf(id), old(files), id))
    {
      var prepared, ran;
      prepared, created, ran, swept := PrepareStep(id);
      handed := prepared == Ok(true);
      if prepared.Err? {
        r := Err(prepared.error);
        return;
      }
      if !prepared.value {
        r := Ok(());
        return;
      }
      r, swept := ReceiveOrAbandon(id, web, swept);
      if r.Ok? {
        SameFiles(files, old(files)[Ready(id) := Sent(web)]);
      } else if old(Calm()) {
        SameFiles(files, old(files));
      }
    }

    /** What follows a granted preparation: the file is received, or the partial abandoned. */
    method ReceiveOrAbandon(id: ExecId, web: seq<Reply>, swept0: bool) returns (r: Result<(), Failure>, swept: bool)
      requires Valid() && Part(id) in files && files[Part(id)] == [] && Ready(id) !in files && !swept0
      modifies this`files, this`luck, this`trail, this`abandonments, this`submissions
      ensures old(trail) <= trail
      ensures Valid() && OthersSame(old(files), files, id)
      ensures r.Ok? ==> Part(id) !in files && Lookup(files, Ready(id)) == Some(Sent(web)) && !swept
      ensures abandonments == old(abandonments) + (if r.Ok? then 0 else 1)
      ensures swept ==> Part(id) !in files
      ensures old(Calm()) ==> Calm() && Received(hash, contractOf(id), web, r)
      ensures old(Calm()) && r.Err? ==> Part(id) !in files && Ready(id) !in files
    {
      var open;
      r, open := Receive(id, web);
      swept := swept0;
      if r.Err? {
        ghost var before := files;
        var cleaned;
        cleaned, swept := CleanupExecutor(id, open);
        LostIsLocal(before, files, id);
        if cleaned.Err? { r := Err(cleaned.error); }
      }
    }

    // ----- reconciliation -----

    /** Removes what no durable receipt retains; nothing is touched before every name has been
        seen to be custody's own. */
    method Reconcile(names: seq<Name>, retained: set<ExecId>) returns (r: Result<(), Code>)
      requires Valid() && (forall n :: n in files <==> n in names)
      requires forall i, j :: 0 <= i < j < |names| ==> names[i] != names[j]
      modifies this`files, this`luck, this`trail
      ensures old(trail) <= trail
      ensures Valid() && Lost(old(files), files, set n | n in old(files) && !n.Stray? && n.id !in retained)
      ensures (exists n :: n in old(files) && n.Stray?) ==> r.Err? && files == old(files)
      ensures r.Ok? ==> forall n :: n in files <==> n in old(files) && n.id in retained
      ensures old(luck) == [] ==> luck == [] && (r.Ok? <==> forall n :: n in old(files) ==> !n.Stray?)
    {
      var i := 0;
      while i < |names|
        invariant 0 <= i <= |names| && files == old(files) && trail == old(trail)
        invariant forall j :: 0 <= j < i ==> !names[j].Stray?
        invariant old(luck) == [] ==> luck == []
      {
        if names[i].Stray? { return Err(PathInvalid); }
        var isPrivate := Call();
        if isPrivate == 0 { return Err(PathInvalid); }
        i := i + 1;
      }
      assert forall n :: n in files ==> !n.Stray?;
      var bound := Call();
      if bound == 0 { return Err(PathInvalid); }
      r := UnlinkStale(names, retained);
      if r.Ok? {
        var still := Call();
        if still == 0 { r := Err(PathInvalid); }
      }
    }

    /** Unlinks the names that are not retained, one by one, until one cannot be. */
    method UnlinkStale(names: seq<Name>, retained: set<ExecId>) returns (r: Result<(), Code>)
      requires Valid() && (forall n :: n in files <==> n in names) && (forall n :: n in files ==> !n.Stray?)
      requires forall i, j :: 0 <= i < j < |names| ==> names[i] != names[j]
      modifies this`files, this`luck, this`trail
      ensures old(trail) <= trail
      ensures Valid() && Lost(old(files), files, set n | n in old(files) && !n.Stray? && n.id !in retained)
      ensures r.Ok? ==> forall n :: n in files <==> n in old(files) && n.id in retained
      ensures old(luck) == [] ==> luck == [] && r.Ok?
    {
      ghost var stale := set n | n in files && !n.Stray? && n.id !in retained;
      var i := 0;
      while i < |names|
        invariant 0 <= i <= |names| && Valid() && old(trail) <= trail && Lost(old(files), files, stale)
        invariant forall j :: 0 <= j < i ==> (names[j] in files <==> names[j].id in retained)
        invariant forall j :: i <= j < |names| ==> names[j] in files
        invariant old(luck) == [] ==> luck == []
      {
        if names[i].id !in retained {
          r := UnlinkEntry(names[i]);
          if r.Err? { return; }
        }
        i := i + 1;
      }
      r := Ok(());
    }

    /** Unlinks one entry that is still the one seen before. */
    method UnlinkEntry(n: Name) returns (r: Result<(), Code>)
      requires Valid()
      modifies this`files, this`luck, this`trail
      ensures old(trail) <= trail
      ensures Valid() && (files == old(files) - {n} || (r.Err? && files == old(files)))
      ensures old(luck) == [] ==> luck == [] && r.Ok?
    {
      var same := Call();
      if same == 0 { return Err(PathInvalid); }
      var gone := Unlink(n);
      if !gone { return Err(IoFailed); }
      var synced := Call();
      r := if synced == 0 then Err(IoFailed) else Ok(());
    }
  }
}
