/** The one ADB identity of the integration: generated at most into an empty store, verified
    on disk before anybody uses it, never replaced.

    One call runs at a time (the manager's lock). A process that dies inside a call leaves
    what a cancelled call leaves, so `Restart` between calls covers crashes as well. */
module Credentials {
  import opened Wrappers

  /** A key pair; two identities are the same when the pairs are. */
  datatype Credential = Credential(publicKey: string, privateKey: string)

  /** What the store path holds. */
  datatype Disk = Absent | Unreadable | Holding(credential: Credential)

  /** `corrupt`: a quarantined copy of an earlier store lies beside the path. */
  datatype Storage = Storage(disk: Disk, corrupt: bool)

  datatype Failure = CredentialError | Interrupted

  /** How the awaits of one call go. `landed` may be true although the save `raised`, and
      `cancelled` strikes anywhere in the drained save, presence check and read-back. */
  datatype Io = Io(
    presenceWorks: bool, readWorks: bool, interrupted: bool, made: Option<Credential>,
    landed: bool, raised: bool, rechecked: bool, readBack: bool, cancelled: bool)

  predicate Evidence(s: Storage) { s.disk != Absent || s.corrupt }

  // ----- one call -----

  /** The drained save of a new identity, its presence check and its read-back. */
  function Persisted(s: Storage, made: Credential, io: Io): (Storage, Result<Credential, Failure>) {
    var s1 := if io.landed then s.(disk := Holding(made)) else s;
    var present := io.rechecked && s1.disk != Absent && !s1.corrupt;
    (s1, if io.cancelled then Err(Interrupted)
         else if io.raised || !present || !io.readBack || s1.disk != Holding(made) then Err(CredentialError)
         else Ok(made))
  }

  /** The identity in the store, if it can be read. */
  function Stored(s: Storage, io: Io): Result<Credential, Failure> {
    if io.interrupted then Err(Interrupted)
    else if !io.readWorks || !s.disk.Holding? then Err(CredentialError)
    else Ok(s.disk.credential)
  }

  /** Get the shared identity, creating it only in a store without any trace of one. */
  function Get(s: Storage, memory: Option<Credential>, io: Io): (Storage, Result<Credential, Failure>) {
    if memory.Some? then (s, Ok(memory.value))
    else if !io.presenceWorks then (s, Err(if io.interrupted then Interrupted else CredentialError))
    else if s.corrupt then (s, Err(CredentialError))
    else if s.disk != Absent then (s, Stored(s, io))
    else if io.interrupted then (s, Err(Interrupted))
    else if io.made.None? then (s, Err(CredentialError))
    else Persisted(s, io.made.value, io)
  }

  /** Reload the identity for a mutation; never creates one. */
  function GetDurable(s: Storage, io: Io): Result<Credential, Failure> {
    if !io.presenceWorks then Err(if io.interrupted then Interrupted else CredentialError)
    else if s.corrupt then Err(CredentialError)
    else Stored(s, io)
  }

  /** Any failure forgets the cached identity. */
  function Remembered(r: Result<Credential, Failure>): Option<Credential> {
    if r.Ok? then Some(r.value) else None
  }

  class CredentialStore {
    var storage: Storage

    constructor (s: Storage)
      ensures storage == s
    {
      storage := s;
    }
  }

  class AdbCredentialManager {
    const store: CredentialStore
    var credential: Option<Credential>

    constructor (s: CredentialStore)
      ensures store == s && credential == None
    {
      store := s;
      credential := None;
    }

    method GetCredential(io: Io) returns (r: Result<Credential, Failure>)
      modifies this, store
      ensures (store.storage, r) == Get(old(store.storage), old(credential), io)
      ensures credential == Remembered(r)
    {
      if credential.Some? { return Ok(credential.value); }
      r := LoadOrCreate(io);
      credential := if r.Ok? then Some(r.value) else None;
    }

    method LoadOrCreate(io: Io) returns (r: Result<Credential, Failure>)
      requires credential.None?
      modifies store
      ensures (store.storage, r) == Get(old(store.storage), None, io)
    {
      if !io.presenceWorks { return Err(if io.interrupted then Interrupted else CredentialError); }
      if store.storage.corrupt { return Err(CredentialError); }
      if store.storage.disk != Absent {
        r := ReadStored(io);
        return;
      }
      if io.interrupted { return Err(Interrupted); }
      if io.made.None? { return Err(CredentialError); }
      r := PersistLocked(io.made.value, io);
    }

    method ReadStored(io: Io) returns (r: Result<Credential, Failure>)
      ensures r == Stored(store.storage, io)
    {
      if io.interrupted { return Err(Interrupted); }
      if !io.readWorks { return Err(CredentialError); }
      match store.storage.disk {
        case Holding(c) => r := Ok(c);
        case _ => r := Err(CredentialError);
      }
    }

    method PersistLocked(made: Credential, io: Io) returns (r: Result<Credential, Failure>)
      modifies store
      ensures (store.storage, r) == Persisted(old(store.storage), made, io)
    {
      if io.landed { store.storage := store.storage.(disk := Holding(made)); }
      var failed := io.raised || !io.rechecked;
      var verified: Option<Credential> := None;
      if io.rechecked {
        if store.storage.disk == Absent || store.storage.corrupt {
          failed := true;
        } else if io.readBack && store.storage.disk.Holding? {
          verified := Some(store.storage.disk.credential);
          if verified != Some(made) { failed := true; }
        } else {
          failed := true;
        }
      }
      if io.cancelled { return Err(Interrupted); }
      if failed || verified.None? { return Err(CredentialError); }
      r := Ok(verified.value);
    }

    method GetDurableCredential(io: Io) returns (r: Result<Credential, Failure>)
      modifies this
      ensures r == GetDurable(store.storage, io) && credential == Remembered(r)
    {
      credential := None;
      if !io.presenceWorks { return Err(if io.interrupted then Interrupted else CredentialError); }
      if store.storage.corrupt { return Err(CredentialError); }
      r := ReadStored(io);
      if r.Ok? { credential := Some(r.value); }
    }
  }

  // ----- runs -----

  datatype Event = Gets(io: Io) | GetsDurable(io: Io) | Restart

  /** `handed` is every identity ever returned, `begun` how often a save of a new one was begun. */
  datatype World = World(storage: Storage, memory: Option<Credential>, handed: seq<Credential>, begun: nat)

  predicate Creates(w: World, io: Io) {
    w.memory.None? && io.presenceWorks && !Evidence(w.storage) && !io.interrupted && io.made.Some?
  }

  function Hand(w: World, r: Result<Credential, Failure>): World {
    w.(memory := Remembered(r), handed := if r.Ok? then w.handed + [r.value] else w.handed)
  }

  function Step(w: World, e: Event): World {
    match e
    case Gets(io) =>
      var done := Get(w.storage, w.memory, io);
      Hand(w.(storage := done.0, begun := w.begun + (if Creates(w, io) then 1 else 0)), done.1)
    case GetsDurable(io) => Hand(w, GetDurable(w.storage, io))
    case Restart => w.(memory := None)
  }

  function After(w: World, events: seq<Event>): World
    decreases |events|
  {
    if |events| == 0 then w else Step(After(w, events[..|events| - 1]), events[|events| - 1])
  }

  predicate Started(w: World) { w.memory.None? && w.handed == [] && w.begun == 0 }

  /** What is cached or was ever handed out is what the disk holds. */
  ghost predicate Inv(w: World) {
    && (w.memory.Some? ==> w.storage.disk == Holding(w.memory.value))
    && (forall c :: c in w.handed ==> w.storage.disk == Holding(c))
  }

  lemma StepKeeps(w: World, e: Event)
    requires Inv(w)
    ensures Inv(Step(w, e))
    ensures Evidence(w.storage) ==> Step(w, e).storage == w.storage && Step(w, e).begun == w.begun
    ensures Step(w, e).storage.corrupt == w.storage.corrupt
  {}

  lemma {:induction false} RunKeeps(w: World, events: seq<Event>)
    requires Started(w)
    ensures Inv(After(w, events))
    decreases |events|
  {
    if |events| > 0 {
      RunKeeps(w, events[..|events| - 1]);
      StepKeeps(After(w, events[..|events| - 1]), events[|events| - 1]);
    }
  }

  /** Every identity ever returned is the same one, and it is the one on disk. */
  lemma {:induction false} OneIdentity(w: World, events: seq<Event>, a: Credential, b: Credential)
    requires Started(w) && a in After(w, events).handed && b in After(w, events).handed
    ensures a == b && After(w, events).storage.disk == Holding(a)
  {
    RunKeeps(w, events);
  }

  /** Any trace of an earlier store keeps the store as it is and blocks every creation, in all continuations. */
  lemma {:induction false} EvidenceBlocks(w: World, events: seq<Event>, i: nat)
    requires Started(w) && i <= |events| && Evidence(After(w, events[..i]).storage)
    ensures After(w, events).storage == After(w, events[..i]).storage
    ensures After(w, events).begun == After(w, events[..i]).begun
    decreases |events|
  {
    if i == |events| {
      assert events[..i] == events;
    } else {
      var before := events[..|events| - 1];
      assert before[..i] == events[..i];
      EvidenceBlocks(w, before, i);
      RunKeeps(w, before);
      StepKeeps(After(w, before), events[|events| - 1]);
    }
  }

  /** A returned identity survives restarts, cancellations and failed saves: whoever asks later
      is given it or an error. */
  lemma {:induction false} IdentityIsForever(w: World, events: seq<Event>, i: nat, c: Credential)
    requires Started(w) && i <= |events| && c in After(w, events[..i]).handed
    ensures After(w, events).storage.disk == Holding(c)
    ensures forall d :: d in After(w, events).handed ==> d == c
  {
    RunKeeps(w, events[..i]);
    EvidenceBlocks(w, events, i);
    RunKeeps(w, events);
  }

  // ----- answers, in literal terms -----

  /** Everything the call waits for works. */
  predicate Good(io: Io) {
    && io.presenceWorks && io.readWorks && !io.interrupted && io.landed && !io.raised && io.rechecked && io.readBack
    && !io.cancelled
  }

  /** With everything working: the remembered identity, or the stored one, or into a store without a trace
      of one the one just made, stored and read back; and nothing else is an answer. */
  lemma GoodAnswers(s: Storage, memory: Option<Credential>, io: Io)
    requires Good(io)
    ensures var (s1, r) := Get(s, memory, io);
      if memory.Some? then s1 == s && r == Ok(memory.value)
      else if s.corrupt || s.disk.Unreadable? then s1 == s && r == Err(CredentialError)
      else if s.disk.Holding? then s1 == s && r == Ok(s.disk.credential)
      else if io.made.None? then s1 == s && r == Err(CredentialError)
      else s1 == Storage(Holding(io.made.value), false) && r == Ok(io.made.value)
    ensures GetDurable(s, io) ==
      if s.disk.Holding? && !s.corrupt then Ok(s.disk.credential) else Err(CredentialError)
  {}

  /** A new identity is an answer only if it was written, read back, and nothing raised or was cancelled;
      the store holds it whenever the write landed. */
  lemma CreationAnswers(io: Io)
    requires io.presenceWorks && !io.interrupted && io.made.Some?
    ensures var (s1, r) := Get(Storage(Absent, false), None, io);
      && s1 == Storage(if io.landed then Holding(io.made.value) else Absent, false)
      && (r == Ok(io.made.value) <==> io.landed && !io.raised && io.rechecked && io.readBack && !io.cancelled)
      && (r.Err? <==> r == Err(if io.cancelled then Interrupted else CredentialError))
  {}

  /** Two calls in one process, or one each in two: the second answers what the first did. */
  lemma {:induction false} AskedAgain(w: World, io: Io, restart: bool, again: Io)
    requires Started(w) && w.storage == Storage(Absent, false) && Good(io) && io.made.Some? && Good(again)
    ensures var a := Step(w, Gets(io));
      var b := Step(if restart then Step(a, Restart) else a, Gets(again));
      a.handed == [io.made.value] && b.handed == [io.made.value, io.made.value] && b.begun == 1
      && b.storage == Storage(Holding(io.made.value), false)
  {
    GoodAnswers(w.storage, None, io);
    var a := Step(w, Gets(io));
    GoodAnswers(a.storage, a.memory, again);
    GoodAnswers(a.storage, None, again);
  }
}
