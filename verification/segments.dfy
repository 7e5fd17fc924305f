/** Reading a package manager's answer in one pass: begin, target block, target status,
    liveness block, liveness status, end. The pass is proved to accept exactly that grammar. */
module Segments {
  import opened Wrappers
  import Frames

  const PACKAGE := "io.github.maxlyth.hapaneld"

  datatype Presence = Present | Absent | Unknown

  datatype RetainedData = Retained | NoData | DataUnknown

  // ----- lines -----

  function WithoutReturns(s: string): string {
    if s == "" then "" else if s[0] == '\r' then WithoutReturns(s[1..]) else [s[0]] + WithoutReturns(s[1..])
  }

  function OutputLines(output: string): seq<string> { Frames.SplitOn(WithoutReturns(output), "") }

  /** An absolute, unambiguous package path. */
  predicate IsPackagePath(line: string) {
    "package:/" <= line && |line| > |"package:/"| && ' ' !in line && '\t' !in line
  }

  function StatusMarker(line: string, prefix: string, nonce: string): Option<nat> {
    Frames.StatusIn(line, prefix + ":" + nonce + ":")
  }

  /** What one line is to the pass: a marker, an item a block may hold, nothing, or an error. */
  datatype Token =
    | Begin | TargetStatus(status: nat) | LiveStatus(status: nat) | End | Blank
    | Item(inTarget: bool, inLive: bool) | Error

  function PackageToken(line: string, nonce: string): Token {
    if line == "HAPANELD_PKG_BEGIN:" + nonce then Begin
    else if StatusMarker(line, "HAPANELD_PKG_TARGET", nonce).Some? then
      TargetStatus(StatusMarker(line, "HAPANELD_PKG_TARGET", nonce).value)
    else if StatusMarker(line, "HAPANELD_PKG_LIVE", nonce).Some? then
      LiveStatus(StatusMarker(line, "HAPANELD_PKG_LIVE", nonce).value)
    else if line == "HAPANELD_PKG_END:" + nonce then End
    else if "HAPANELD_PKG_" <= line then Error
    else if "package:" <= line then (if IsPackagePath(line) then Item(true, true) else Error)
    else if line == "" then Blank
    else Error
  }

  function DataToken(line: string, nonce: string): Token {
    if line == "HAPANELD_DATA_BEGIN:" + nonce then Begin
    else if StatusMarker(line, "HAPANELD_DATA_TARGET", nonce).Some? then
      TargetStatus(StatusMarker(line, "HAPANELD_DATA_TARGET", nonce).value)
    else if StatusMarker(line, "HAPANELD_DATA_LIVE", nonce).Some? then
      LiveStatus(StatusMarker(line, "HAPANELD_DATA_LIVE", nonce).value)
    else if line == "HAPANELD_DATA_END:" + nonce then End
    else if "HAPANELD_DATA_" <= line then Error
    else PlainDataToken(line)
  }

  function PlainDataToken(line: string): Token {
    if line == "package:" + PACKAGE then Item(true, false)
    else if IsPackagePath(line) then Item(false, true)
    else if line == "" then Blank
    else Error
  }

  function PackageTokens(lines: seq<string>, nonce: string): seq<Token> {
    seq(|lines|, i requires 0 <= i < |lines| => PackageToken(lines[i], nonce))
  }

  function DataTokens(lines: seq<string>, nonce: string): seq<Token> {
    seq(|lines|, i requires 0 <= i < |lines| => DataToken(lines[i], nonce))
  }

  // ----- the grammar -----

  /** Where the four markers stand. */
  datatype Places = Places(b: nat, t: nat, l: nat, e: nat)

  /** How many markers come before line `i`. */
  function Region(p: Places, i: nat): nat {
    if i <= p.b then 0 else if i <= p.t then 1 else if i <= p.l then 2 else if i <= p.e then 3 else 4
  }

  predicate Fits(token: Token, region: nat) {
    token.Blank? || (token.Item? && ((region == 1 && token.inTarget) || (region == 2 && token.inLive)))
  }

  /** begin, target block, target status, liveness block, liveness status, end; blank lines
      anywhere, items only in their own block, and nothing else. */
  ghost predicate Grammar(ts: seq<Token>, p: Places) {
    && p.b < p.t < p.l < p.e < |ts|
    && ts[p.b].Begin? && ts[p.t].TargetStatus? && ts[p.l].LiveStatus? && ts[p.e].End?
    && forall i :: 0 <= i < |ts| && i != p.b && i != p.t && i != p.l && i != p.e ==> Fits(ts[i], Region(p, i))
  }

  ghost predicate ItemWithin(ts: seq<Token>, from: nat, to: nat) {
    exists i :: from < i < to && i < |ts| && ts[i].Item?
  }

  // ----- the pass -----

  /** `segment` counts the markers seen. */
  datatype State = State(segment: nat, target: Option<nat>, live: Option<nat>, targetItem: bool, liveItem: bool)

  const START := State(0, None, None, false, false)

  function Advance(s: State, token: Token): Option<State> {
    match token
    case Begin => if s.segment == 0 then Some(s.(segment := 1)) else None
    case TargetStatus(n) => if s.segment == 1 then Some(s.(segment := 2, target := Some(n))) else None
    case LiveStatus(n) => if s.segment == 2 then Some(s.(segment := 3, live := Some(n))) else None
    case End => if s.segment == 3 then Some(s.(segment := 4)) else None
    case Blank => Some(s)
    case Item(inTarget, inLive) =>
      if s.segment == 1 && inTarget then Some(s.(targetItem := true))
      else if s.segment == 2 && inLive then Some(s.(liveItem := true))
      else None
    case Error => None
  }

  function Run(ts: seq<Token>, i: nat): Option<State>
    requires i <= |ts|
  {
    if i == 0 then Some(START)
    else
      match Run(ts, i - 1)
      case None => None
      case Some(s) => Advance(s, ts[i - 1])
  }

  lemma {:induction false} FailedStays(ts: seq<Token>, i: nat, j: nat)
    requires i <= j <= |ts| && Run(ts, i).None?
    ensures Run(ts, j).None?
    decreases j
  {
    if j > i {
      FailedStays(ts, i, j - 1);
    }
  }

  function PresenceOf(end: Option<State>): Presence {
    if end.None? || end.value.segment != 4 || end.value.live != Some(0) || !end.value.liveItem then Unknown
    else if end.value.targetItem then (if end.value.target == Some(0) then Present else Unknown)
    else if end.value.target == Some(0) || end.value.target == Some(1) then Absent
    else Unknown
  }

  function RetainedOf(end: Option<State>): RetainedData {
    if end.None? || end.value.segment != 4 || end.value.target != Some(0) || end.value.live != Some(0)
       || !end.value.liveItem
    then DataUnknown
    else if end.value.targetItem then Retained else NoData
  }

  /** One line of the package answer. */
  method PackageLine(line: string, nonce: string, s: State) returns (next: Option<State>)
    ensures next == Advance(s, PackageToken(line, nonce))
  {
    var target := StatusMarker(line, "HAPANELD_PKG_TARGET", nonce);
    var live := StatusMarker(line, "HAPANELD_PKG_LIVE", nonce);
    var segment := s.segment;
    if line == "HAPANELD_PKG_BEGIN:" + nonce {
      return if segment != 0 then None else Some(s.(segment := 1));
    }
    if target.Some? {
      return if segment != 1 then None else Some(s.(target := target, segment := 2));
    }
    if live.Some? {
      return if segment != 2 then None else Some(s.(live := live, segment := 3));
    }
    if line == "HAPANELD_PKG_END:" + nonce {
      return if segment != 3 then None else Some(s.(segment := 4));
    }
    if "HAPANELD_PKG_" <= line { return None; }
    if "package:" <= line {
      if !IsPackagePath(line) { return None; }
      if segment == 1 { return Some(s.(targetItem := true)); }
      if segment == 2 { return Some(s.(liveItem := true)); }
      return None;
    }
    next := if line != "" then None else Some(s);
  }

  /** One line of the retained-data answer. */
  method DataLine(line: string, nonce: string, s: State) returns (next: Option<State>)
    ensures next == Advance(s, DataToken(line, nonce))
  {
    var target := StatusMarker(line, "HAPANELD_DATA_TARGET", nonce);
    var live := StatusMarker(line, "HAPANELD_DATA_LIVE", nonce);
    var segment := s.segment;
    if line == "HAPANELD_DATA_BEGIN:" + nonce {
      return if segment != 0 then None else Some(s.(segment := 1));
    }
    if target.Some? {
      return if segment != 1 then None else Some(s.(target := target, segment := 2));
    }
    if live.Some? {
      return if segment != 2 then None else Some(s.(live := live, segment := 3));
    }
    if line == "HAPANELD_DATA_END:" + nonce {
      return if segment != 3 then None else Some(s.(segment := 4));
    }
    if "HAPANELD_DATA_" <= line { return None; }
    next := DataItem(line, nonce, s);
  }

  /** A line of the retained-data answer that is no marker. */
  method DataItem(line: string, nonce: string, s: State) returns (next: Option<State>)
    ensures next == Advance(s, PlainDataToken(line))
  {
    OwnIsNoPath();
    if s.segment == 1 {
      if line == "package:" + PACKAGE { return Some(s.(targetItem := true)); }
      return if line != "" then None else Some(s);
    }
    if "package:" <= line {
      if s.segment != 2 || !IsPackagePath(line) { return None; }
      return Some(s.(liveItem := true));
    }
    PathsArePackages(line);
    next := if line != "" then None else Some(s);
  }

  lemma PathsArePackages(line: string)
    ensures IsPackagePath(line) || line == "package:" + PACKAGE ==> "package:" <= line
  {}

  /** The integration's own package line is no absolute path. */
  lemma OwnIsNoPath()
    ensures !IsPackagePath("package:" + PACKAGE)
  {
    assert ("package:" + PACKAGE)[8] == 'i' && "package:/"[8] == '/';
  }

  // ----- the pass accepts exactly the grammar -----

  ghost predicate ItemBefore(ts: seq<Token>, from: nat, to: nat, i: nat) {
    exists j :: from < j < to && j < i && j < |ts| && ts[j].Item?
  }

  /** The state the pass is in before line `i` when the markers stand at `p`. */
  ghost predicate Describes(ts: seq<Token>, p: Places, i: nat, s: State) {
    && s.segment == Region(p, i)
    && (s.segment >= 2 ==> p.t < |ts| && ts[p.t].TargetStatus? && s.target == Some(ts[p.t].status))
    && (s.segment >= 3 ==> p.l < |ts| && ts[p.l].LiveStatus? && s.live == Some(ts[p.l].status))
    && (s.segment < 2 ==> s.target.None?) && (s.segment < 3 ==> s.live.None?)
    && (s.targetItem <==> ItemBefore(ts, p.b, p.t, i))
    && (s.liveItem <==> ItemBefore(ts, p.t, p.l, i))
  }

  lemma ItemNext(ts: seq<Token>, from: nat, to: nat, i: nat)
    requires i < |ts|
    ensures ItemBefore(ts, from, to, i + 1) <==> ItemBefore(ts, from, to, i) || (from < i < to && ts[i].Item?)
  {}

  /** On a grammatical answer the pass goes through, state by state. */
  lemma {:induction false} GrammarRuns(ts: seq<Token>, p: Places, i: nat)
    requires Grammar(ts, p) && i <= |ts|
    ensures Run(ts, i).Some? && Describes(ts, p, i, Run(ts, i).value)
    decreases i
  {
    if i > 0 {
      GrammarRuns(ts, p, i - 1);
      ItemNext(ts, p.b, p.t, i - 1);
      ItemNext(ts, p.t, p.l, i - 1);
      assert i - 1 != p.b && i - 1 != p.t && i - 1 != p.l && i - 1 != p.e ==> Fits(ts[i - 1], Region(p, i - 1));
    }
  }

  /** What the pass has seen of the grammar after `i` lines: the first `segment` markers. */
  ghost predicate Prefix(ts: seq<Token>, p: Places, i: nat, s: State)
    requires i <= |ts|
  {
    && s.segment <= 4
    && (if s.segment >= 1 then p.b < i && ts[p.b].Begin? else p.b >= |ts|)
    && (if s.segment >= 2 then p.b < p.t < i && ts[p.t].TargetStatus? else p.t > p.b && p.t >= |ts|)
    && (if s.segment >= 3 then p.t < p.l < i && ts[p.l].LiveStatus? else p.l > p.t && p.l >= |ts|)
    && (if s.segment >= 4 then p.l < p.e < i && ts[p.e].End? else p.e > p.l && p.e >= |ts|)
    && (forall j :: 0 <= j < i && j != p.b && j != p.t && j != p.l && j != p.e ==> Fits(ts[j], Region(p, j)))
  }

  /** Placing the next marker at `i`. */
  function Placed(p: Places, i: nat, segment: nat): Places {
    match segment
    case 0 => p.(b := i)
    case 1 => p.(t := i)
    case 2 => p.(l := i)
    case _ => p.(e := i)
  }

  /** A pass that has not failed shows where the markers stand. */
  lemma {:induction false} RunShowsPlaces(ts: seq<Token>, i: nat) returns (p: Places)
    requires i <= |ts| && Run(ts, i).Some?
    ensures Prefix(ts, p, i, Run(ts, i).value)
    decreases i
  {
    if i == 0 {
      p := Places(|ts|, |ts| + 1, |ts| + 2, |ts| + 3);
    } else {
      var q := RunShowsPlaces(ts, i - 1);
      var s, token := Run(ts, i - 1).value, ts[i - 1];
      if token.Blank? || token.Item? {
        p := q;
        assert Fits(token, Region(p, i - 1));
      } else {
        p := Placed(q, i - 1, s.segment);
        forall j | 0 <= j < i && j != p.b && j != p.t && j != p.l && j != p.e ensures Fits(ts[j], Region(p, j)) {
          assert Region(p, j) == Region(q, j);
        }
      }
    }
  }

  /** The pass ends in the last segment exactly on the grammar. */
  lemma PassIsGrammar(ts: seq<Token>)
    ensures (Run(ts, |ts|).Some? && Run(ts, |ts|).value.segment == 4) <==> (exists p :: Grammar(ts, p))
    ensures forall p :: Grammar(ts, p) ==> Describes(ts, p, |ts|, Run(ts, |ts|).value)
  {
    forall p | Grammar(ts, p) ensures Run(ts, |ts|).Some? && Describes(ts, p, |ts|, Run(ts, |ts|).value) {
      GrammarRuns(ts, p, |ts|);
    }
    if Run(ts, |ts|).Some? && Run(ts, |ts|).value.segment == 4 {
      var p := RunShowsPlaces(ts, |ts|);
      assert Grammar(ts, p);
    }
  }

  // ----- the verdicts -----

  ghost predicate Alive(ts: seq<Token>, p: Places) {
    Grammar(ts, p) && ts[p.l].status == 0 && ItemWithin(ts, p.t, p.l)
  }

  /** The package manager answered, and named a path for the package with success. */
  ghost predicate ShowsPresent(ts: seq<Token>, p: Places) {
    Alive(ts, p) && ts[p.t].status == 0 && ItemWithin(ts, p.b, p.t)
  }

  ghost predicate ShowsAbsent(ts: seq<Token>, p: Places) {
    Alive(ts, p) && ts[p.t].status <= 1 && !ItemWithin(ts, p.b, p.t)
  }

  ghost predicate ShowsRetained(ts: seq<Token>, p: Places) {
    Alive(ts, p) && ts[p.t].status == 0 && ItemWithin(ts, p.b, p.t)
  }

  ghost predicate ShowsNoData(ts: seq<Token>, p: Places) {
    Alive(ts, p) && ts[p.t].status == 0 && !ItemWithin(ts, p.b, p.t)
  }

  lemma ItemsToTheEnd(ts: seq<Token>, p: Places)
    requires Grammar(ts, p)
    ensures ItemBefore(ts, p.b, p.t, |ts|) <==> ItemWithin(ts, p.b, p.t)
    ensures ItemBefore(ts, p.t, p.l, |ts|) <==> ItemWithin(ts, p.t, p.l)
  {}

  /** On a grammatical answer the verdicts read off the places. */
  lemma VerdictsAt(ts: seq<Token>, p: Places)
    requires Grammar(ts, p)
    ensures var end := Run(ts, |ts|);
      && (PresenceOf(end) == Present <==> ShowsPresent(ts, p))
      && (PresenceOf(end) == Absent <==> ShowsAbsent(ts, p))
      && (RetainedOf(end) == Retained <==> ShowsRetained(ts, p))
      && (RetainedOf(end) == NoData <==> ShowsNoData(ts, p))
  {
    PassIsGrammar(ts);
    ItemsToTheEnd(ts, p);
  }

  /** Present and Absent are returned exactly when the grammar shows them; Unknown otherwise. */
  lemma PresenceIsGrammar(ts: seq<Token>)
    ensures PresenceOf(Run(ts, |ts|)) == Present <==> exists p :: ShowsPresent(ts, p)
    ensures PresenceOf(Run(ts, |ts|)) == Absent <==> exists p :: ShowsAbsent(ts, p)
  {
    PassIsGrammar(ts);
    if p :| Grammar(ts, p) {
      VerdictsAt(ts, p);
    }
    forall p | Grammar(ts, p)
      ensures ShowsPresent(ts, p) <==> PresenceOf(Run(ts, |ts|)) == Present
      ensures ShowsAbsent(ts, p) <==> PresenceOf(Run(ts, |ts|)) == Absent
    {
      VerdictsAt(ts, p);
    }
  }

  /** Retained and no data are returned exactly when the grammar shows them; unknown otherwise. */
  lemma RetainedIsGrammar(ts: seq<Token>)
    ensures RetainedOf(Run(ts, |ts|)) == Retained <==> exists p :: ShowsRetained(ts, p)
    ensures RetainedOf(Run(ts, |ts|)) == NoData <==> exists p :: ShowsNoData(ts, p)
  {
    PassIsGrammar(ts);
    if p :| Grammar(ts, p) {
      VerdictsAt(ts, p);
    }
    forall p | Grammar(ts, p)
      ensures ShowsRetained(ts, p) <==> RetainedOf(Run(ts, |ts|)) == Retained
      ensures ShowsNoData(ts, p) <==> RetainedOf(Run(ts, |ts|)) == NoData
    {
      VerdictsAt(ts, p);
    }
  }

  // ----- the parsers -----

  /** The pass over all lines; None as soon as one does not fit. */
  method PassPackage(lines: seq<string>, nonce: string) returns (end: Option<State>)
    ensures end == Run(PackageTokens(lines, nonce), |lines|)
  {
    ghost var ts := PackageTokens(lines, nonce);
    var s, i := START, 0;
    while i < |lines|
      invariant 0 <= i <= |lines| && Run(ts, i) == Some(s)
    {
      var next := PackageLine(lines[i], nonce, s);
      RunOne(ts, i, s, next);
      if next.None? {
        FailedStays(ts, i + 1, |ts|);
        return None;
      }
      s := next.value;
      i := i + 1;
    }
    end := Some(s);
  }

  /** The pass over all lines; None as soon as one does not fit. */
  method PassData(lines: seq<string>, nonce: string) returns (end: Option<State>)
    ensures end == Run(DataTokens(lines, nonce), |lines|)
  {
    ghost var ts := DataTokens(lines, nonce);
    var s, i := START, 0;
    while i < |lines|
      invariant 0 <= i <= |lines| && Run(ts, i) == Some(s)
    {
      var next := DataLine(lines[i], nonce, s);
      RunOne(ts, i, s, next);
      if next.None? {
        FailedStays(ts, i + 1, |ts|);
        return None;
      }
      s := next.value;
      i := i + 1;
    }
    end := Some(s);
  }

  lemma RunOne(ts: seq<Token>, i: nat, s: State, next: Option<State>)
    requires i < |ts| && Run(ts, i) == Some(s) && next == Advance(s, ts[i])
    ensures Run(ts, i + 1) == next
  {}

  method ParsePackagePresence(output: string, nonce: string) returns (r: Presence)
    ensures r == Present <==> exists p :: ShowsPresent(PackageTokens(OutputLines(output), nonce), p)
    ensures r == Absent <==> exists p :: ShowsAbsent(PackageTokens(OutputLines(output), nonce), p)
  {
    var lines := OutputLines(output);
    PresenceIsGrammar(PackageTokens(lines, nonce));
    var end := PassPackage(lines, nonce);
    if end.None? { return Unknown; }
    var s := end.value;
    if s.segment != 4 || s.live != Some(0) || !s.liveItem { return Unknown; }
    if s.targetItem { return if s.target == Some(0) then Present else Unknown; }
    r := if s.target == Some(0) || s.target == Some(1) then Absent else Unknown;
  }

  method ParseRetainedPackageData(output: string, nonce: string) returns (r: RetainedData)
    ensures r == Retained <==> exists p :: ShowsRetained(DataTokens(OutputLines(output), nonce), p)
    ensures r == NoData <==> exists p :: ShowsNoData(DataTokens(OutputLines(output), nonce), p)
  {
    var lines := OutputLines(output);
    RetainedIsGrammar(DataTokens(lines, nonce));
    var end := PassData(lines, nonce);
    if end.None? { return DataUnknown; }
    var s := end.value;
    if s.segment != 4 || s.target != Some(0) || s.live != Some(0) || !s.liveItem { return DataUnknown; }
    r := if s.targetItem then Retained else NoData;
  }

  // ----- the commands' own answers are read as meant -----

  lemma MarkerTokens(nonce: string, digits: string, status: nat)
    requires Frames.Spells(digits, status)
    ensures PackageToken("HAPANELD_PKG_BEGIN:" + nonce, nonce) == Begin
    ensures PackageToken("HAPANELD_PKG_TARGET:" + nonce + ":" + digits, nonce) == TargetStatus(status)
    ensures PackageToken("HAPANELD_PKG_LIVE:" + nonce + ":" + digits, nonce) == LiveStatus(status)
    ensures PackageToken("HAPANELD_PKG_END:" + nonce, nonce) == End
  {
    StatusReads("HAPANELD_PKG_TARGET", nonce, digits, status);
    StatusReads("HAPANELD_PKG_LIVE", nonce, digits, status);
    StatusElsewhere("HAPANELD_PKG_TARGET", "HAPANELD_PKG_LIVE:" + nonce + ":" + digits, nonce, 13);
    StatusElsewhere("HAPANELD_PKG_TARGET", "HAPANELD_PKG_END:" + nonce, nonce, 13);
    StatusElsewhere("HAPANELD_PKG_LIVE", "HAPANELD_PKG_END:" + nonce, nonce, 13);
    assert ("HAPANELD_PKG_TARGET:" + nonce + ":" + digits)[13] == 'T';
    assert ("HAPANELD_PKG_LIVE:" + nonce + ":" + digits)[13] == 'L';
    assert ("HAPANELD_PKG_BEGIN:" + nonce)[13] == 'B';
    assert ("HAPANELD_PKG_END:" + nonce)[13] == 'E';
  }

  lemma DataMarkerTokens(nonce: string, digits: string, status: nat)
    requires Frames.Spells(digits, status)
    ensures DataToken("HAPANELD_DATA_BEGIN:" + nonce, nonce) == Begin
    ensures DataToken("HAPANELD_DATA_TARGET:" + nonce + ":" + digits, nonce) == TargetStatus(status)
    ensures DataToken("HAPANELD_DATA_LIVE:" + nonce + ":" + digits, nonce) == LiveStatus(status)
    ensures DataToken("HAPANELD_DATA_END:" + nonce, nonce) == End
  {
    DataTargetToken(nonce, digits, status);
    DataLiveToken(nonce, digits, status);
    DataEndToken(nonce);
  }

  lemma DataTargetToken(nonce: string, digits: string, status: nat)
    requires Frames.Spells(digits, status)
    ensures DataToken("HAPANELD_DATA_TARGET:" + nonce + ":" + digits, nonce) == TargetStatus(status)
  {
    StatusReads("HAPANELD_DATA_TARGET", nonce, digits, status);
    assert ("HAPANELD_DATA_TARGET:" + nonce + ":" + digits)[14] == 'T';
    assert ("HAPANELD_DATA_BEGIN:" + nonce)[14] == 'B';
  }

  lemma DataLiveToken(nonce: string, digits: string, status: nat)
    requires Frames.Spells(digits, status)
    ensures DataToken("HAPANELD_DATA_LIVE:" + nonce + ":" + digits, nonce) == LiveStatus(status)
  {
    StatusReads("HAPANELD_DATA_LIVE", nonce, digits, status);
    StatusElsewhere("HAPANELD_DATA_TARGET", "HAPANELD_DATA_LIVE:" + nonce + ":" + digits, nonce, 14);
    assert ("HAPANELD_DATA_LIVE:" + nonce + ":" + digits)[14] == 'L';
    assert ("HAPANELD_DATA_BEGIN:" + nonce)[14] == 'B';
  }

  lemma DataEndToken(nonce: string)
    ensures DataToken("HAPANELD_DATA_END:" + nonce, nonce) == End
  {
    StatusElsewhere("HAPANELD_DATA_TARGET", "HAPANELD_DATA_END:" + nonce, nonce, 14);
    StatusElsewhere("HAPANELD_DATA_LIVE", "HAPANELD_DATA_END:" + nonce, nonce, 14);
    assert ("HAPANELD_DATA_BEGIN:" + nonce)[14] == 'B' && ("HAPANELD_DATA_END:" + nonce)[14] == 'E';
  }

  lemma StatusReads(prefix: string, nonce: string, digits: string, status: nat)
    requires Frames.Spells(digits, status)
    ensures StatusMarker(prefix + ":" + nonce + ":" + digits, prefix, nonce) == Some(status)
  {
    Frames.StatusSpells(prefix + ":" + nonce + ":", digits, status);
    assert prefix + ":" + nonce + ":" + digits == (prefix + ":" + nonce + ":") + digits;
  }

  lemma StatusElsewhere(prefix: string, line: string, nonce: string, i: nat)
    requires i < |prefix| && i < |line| && line[i] != prefix[i]
    ensures StatusMarker(line, prefix, nonce).None?
  {
    assert (prefix + ":" + nonce + ":")[i] == prefix[i];
  }

  lemma PathIsItem(path: string, nonce: string)
    requires IsPackagePath(path)
    ensures PackageToken(path, nonce) == Item(true, true)
    ensures path != "package:" + PACKAGE ==> DataToken(path, nonce) == Item(false, true)
  {
    assert path[0] == 'p' && ("HAPANELD_PKG_BEGIN:" + nonce)[0] == 'H';
    assert ("HAPANELD_DATA_BEGIN:" + nonce)[0] == 'H';
    StatusElsewhere("HAPANELD_PKG_TARGET", path, nonce, 0);
    StatusElsewhere("HAPANELD_PKG_LIVE", path, nonce, 0);
    StatusElsewhere("HAPANELD_DATA_TARGET", path, nonce, 0);
    StatusElsewhere("HAPANELD_DATA_LIVE", path, nonce, 0);
    PathsArePackages(path);
  }

  lemma OwnIsItem(nonce: string)
    ensures DataToken("package:" + PACKAGE, nonce) == Item(true, false)
  {
    var line := "package:" + PACKAGE;
    assert line[0] == 'p' && ("HAPANELD_DATA_BEGIN:" + nonce)[0] == 'H' && ("HAPANELD_DATA_END:" + nonce)[0] == 'H';
    StatusElsewhere("HAPANELD_DATA_TARGET", line, nonce, 0);
    StatusElsewhere("HAPANELD_DATA_LIVE", line, nonce, 0);
  }

  lemma ZeroAndOne()
    ensures Frames.Spells("0", 0) && Frames.Spells("1", 1)
  {
    assert "0"[..0] == "" && "1"[..0] == "";
    assert Frames.DigitsValue("") == 0;
  }

  /** A run over six or five tokens in their order. */
  lemma SixTokens(ts: seq<Token>, target: nat)
    requires |ts| == 6 && ts[0] == Begin && ts[1].Item? && ts[1].inTarget && ts[2] == TargetStatus(target)
    requires ts[3].Item? && ts[3].inLive && ts[4] == LiveStatus(0) && ts[5] == End
    ensures Run(ts, 6) == Some(State(4, Some(target), Some(0), true, true))
  {
    assert Run(ts, 0) == Some(START) && Run(ts, 1) == Some(START.(segment := 1));
    assert Run(ts, 2) == Some(State(1, None, None, true, false));
    assert Run(ts, 3) == Some(State(2, Some(target), None, true, false));
    assert Run(ts, 4) == Some(State(2, Some(target), None, true, true));
    assert Run(ts, 5) == Some(State(3, Some(target), Some(0), true, true));
  }

  lemma FiveTokens(ts: seq<Token>, target: nat)
    requires |ts| == 5 && ts[0] == Begin && ts[1] == TargetStatus(target)
    requires ts[2].Item? && ts[2].inLive && ts[3] == LiveStatus(0) && ts[4] == End
    ensures Run(ts, 5) == Some(State(4, Some(target), Some(0), false, true))
  {
    assert Run(ts, 0) == Some(START) && Run(ts, 1) == Some(START.(segment := 1));
    assert Run(ts, 2) == Some(State(2, Some(target), None, false, false));
    assert Run(ts, 3) == Some(State(2, Some(target), None, false, true));
    assert Run(ts, 4) == Some(State(3, Some(target), Some(0), false, true));
  }

  function PresentAnswer(nonce: string, path: string, other: string): seq<string> {
    ["HAPANELD_PKG_BEGIN:" + nonce, path, "HAPANELD_PKG_TARGET:" + nonce + ":" + "0", other,
     "HAPANELD_PKG_LIVE:" + nonce + ":" + "0", "HAPANELD_PKG_END:" + nonce]
  }

  function AbsentAnswer(nonce: string, digits: string, other: string): seq<string> {
    ["HAPANELD_PKG_BEGIN:" + nonce, "HAPANELD_PKG_TARGET:" + nonce + ":" + digits, other,
     "HAPANELD_PKG_LIVE:" + nonce + ":" + "0", "HAPANELD_PKG_END:" + nonce]
  }

  function RetainedAnswer(nonce: string, other: string): seq<string> {
    ["HAPANELD_DATA_BEGIN:" + nonce, "package:" + PACKAGE, "HAPANELD_DATA_TARGET:" + nonce + ":" + "0",
     other, "HAPANELD_DATA_LIVE:" + nonce + ":" + "0", "HAPANELD_DATA_END:" + nonce]
  }

  lemma PresentTokens(nonce: string, path: string, other: string)
    requires IsPackagePath(path) && IsPackagePath(other)
    ensures var ts := PackageTokens(PresentAnswer(nonce, path, other), nonce);
      && |ts| == 6 && ts[0] == Begin && ts[1] == Item(true, true) && ts[2] == TargetStatus(0)
      && ts[3] == Item(true, true) && ts[4] == LiveStatus(0) && ts[5] == End
  {
    PresentItems(nonce, path, other);
    ZeroAndOne();
    MarkerTokens(nonce, "0", 0);
  }

  lemma PresentItems(nonce: string, path: string, other: string)
    requires IsPackagePath(path) && IsPackagePath(other)
    ensures var ts := PackageTokens(PresentAnswer(nonce, path, other), nonce);
      |ts| == 6 && ts[1] == Item(true, true) && ts[3] == Item(true, true)
  {
    PathIsItem(path, nonce);
    PathIsItem(other, nonce);
  }

  /** The package is listed with its path: it is present. */
  lemma PresentIsRead(nonce: string, path: string, other: string)
    requires IsPackagePath(path) && IsPackagePath(other)
    ensures PresenceOf(Run(PackageTokens(PresentAnswer(nonce, path, other), nonce), 6)) == Present
  {
    PresentTokens(nonce, path, other);
    SixTokens(PackageTokens(PresentAnswer(nonce, path, other), nonce), 0);
  }

  lemma AbsentTokens(nonce: string, digits: string, status: nat, other: string)
    requires IsPackagePath(other) && Frames.Spells(digits, status)
    ensures var ts := PackageTokens(AbsentAnswer(nonce, digits, other), nonce);
      && |ts| == 5 && ts[0] == Begin && ts[1] == TargetStatus(status) && ts[2] == Item(true, true)
      && ts[3] == LiveStatus(0) && ts[4] == End
  {
    ZeroAndOne();
    MarkerTokens(nonce, digits, status);
    MarkerTokens(nonce, "0", 0);
    PathIsItem(other, nonce);
  }

  /** It is not listed, and another package is: it is absent. */
  lemma AbsentIsRead(nonce: string, digits: string, other: string)
    requires IsPackagePath(other) && (digits == "0" || digits == "1")
    ensures PresenceOf(Run(PackageTokens(AbsentAnswer(nonce, digits, other), nonce), 5)) == Absent
  {
    ZeroAndOne();
    var status := if digits == "0" then 0 else 1;
    AbsentTokens(nonce, digits, status, other);
    FiveTokens(PackageTokens(AbsentAnswer(nonce, digits, other), nonce), status);
  }

  lemma RetainedTokens(nonce: string, other: string)
    requires IsPackagePath(other)
    ensures var ts := DataTokens(RetainedAnswer(nonce, other), nonce);
      && |ts| == 6 && ts[0] == Begin && ts[1] == Item(true, false) && ts[2] == TargetStatus(0)
      && ts[3] == Item(false, true) && ts[4] == LiveStatus(0) && ts[5] == End
  {
    RetainedItems(nonce, other);
    ZeroAndOne();
    DataMarkerTokens(nonce, "0", 0);
  }

  lemma RetainedItems(nonce: string, other: string)
    requires IsPackagePath(other)
    ensures var ts := DataTokens(RetainedAnswer(nonce, other), nonce);
      |ts| == 6 && ts[1] == Item(true, false) && ts[3] == Item(false, true)
  {
    OwnIsItem(nonce);
    OwnIsNoPath();
    PathIsItem(other, nonce);
  }

  /** The uninstalled package is still listed: its data is retained. */
  lemma RetainedIsRead(nonce: string, other: string)
    requires IsPackagePath(other)
    ensures RetainedOf(Run(DataTokens(RetainedAnswer(nonce, other), nonce), 6)) == Retained
  {
    RetainedTokens(nonce, other);
    SixTokens(DataTokens(RetainedAnswer(nonce, other), nonce), 0);
  }
}
