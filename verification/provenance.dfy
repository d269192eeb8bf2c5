/** The package provenance verifier (scripts/verify-package-prebuilds.js): the loop over the
    declared artifacts and the comparison with the files on disk. The file listing and the hash
    of a file are given; an entry that fails the JSON and pattern checks is Malformed. */
module Provenance {
  import opened Optional

  datatype Kind = Sidecar | Addon

  datatype Entry = Malformed | Artifact(target: string, kind: Kind, path: string, sha256: string)

  /** The parsed document; `exact` says that it has exactly the expected keys and types. */
  datatype Document = Document(exact: bool, schemaVersion: int, sourceSha: string, addonAbiVersion: int,
      capabilities: seq<string>, artifacts: seq<Entry>)

  /** The package on disk: every path below prebuilds, and whether all of them are plain files. */
  datatype Package = Package(listing: seq<string>, plain: bool, hash: string -> string)

  datatype Reason =
    | BadExpectedSha | Unreadable | SourceMismatch | AbiMismatch | BadSchema
    | BadEntry | BadAddon | BadSidecar | DuplicatePath | DuplicateIdentity | MissingFile | BadChecksum
    | SidecarMissing | NotPlain | LayoutMismatch

  datatype Verdict = Accepted | Rejected(reason: Reason)

  const PROVENANCE := "prebuilds/provenance.json"

  const REQUIRED_SIDECARS: map<string, string> := map[
    "linux-x64" := "prebuilds/linux-x64/arti-socks",
    "linux-arm64" := "prebuilds/linux-arm64/arti-socks",
    "darwin-x64" := "prebuilds/darwin-x64/arti-socks",
    "darwin-arm64" := "prebuilds/darwin-arm64/arti-socks",
    "win32-x64" := "prebuilds/win32-x64/arti-socks.exe"
  ]

  const SUPPORTED_ADDON_TARGETS: set<string> := {
    "linux-x64", "linux-arm64", "darwin-x64", "darwin-arm64", "win32-x64", "android-arm64", "ios-arm64",
        "ios-arm64-simulator"
  }

  predicate FullSha(s: string) {
    |s| == 40 && forall c :: c in s ==> 'a' <= c <= 'f' || '0' <= c <= '9'
  }

  // ---------------------------------------------------------------- sorted names

  /** The order of JavaScript's default sort: by code units. */
  predicate Less(a: string, b: string) {
    b != "" && (a == "" || a[0] < b[0] || (a[0] == b[0] && Less(a[1..], b[1..])))
  }

  lemma {:induction false} LessIsIrreflexive(a: string)
    ensures !Less(a, a)
    decreases |a|
  {
    if a != "" { LessIsIrreflexive(a[1..]); }
  }

  lemma {:induction false} LessIsTotal(a: string, b: string)
    ensures a == b || Less(a, b) || Less(b, a)
    ensures !(Less(a, b) && Less(b, a)) && !Less(a, a)
    decreases |a| + |b|
  {
    LessIsIrreflexive(a);
    if a != "" && b != "" && a[0] == b[0] {
      LessIsTotal(a[1..], b[1..]);
      assert a == [a[0]] + a[1..] && b == [b[0]] + b[1..];
    }
  }

  lemma {:induction false} LessIsTransitive(a: string, b: string, c: string)
    requires Less(a, b) && Less(b, c)
    ensures Less(a, c)
    decreases |a|
  {
    if a != "" && b != "" && a[0] == b[0] == c[0] { LessIsTransitive(a[1..], b[1..], c[1..]); }
  }

  predicate Sorted(s: seq<string>) {
    forall i, j :: 0 <= i < j < |s| ==> Less(s[i], s[j])
  }

  predicate NoRepeats(s: seq<string>) {
    forall i, j :: 0 <= i < j < |s| ==> s[i] != s[j]
  }

  function Insert(x: string, s: seq<string>): (r: seq<string>)
    ensures forall y :: y in r <==> y == x || y in s
    decreases |s|
  {
    if s == [] || Less(x, s[0]) then [x] + s
    else
      assert forall y :: y in s <==> y == s[0] || y in s[1..];
      [s[0]] + Insert(x, s[1..])
  }

  function Sort(s: seq<string>): (r: seq<string>)
    ensures forall y :: y in r <==> y in s
  {
    if s == [] then []
    else
      assert forall y :: y in s <==> y in s[..|s| - 1] || y == s[|s| - 1];
      Insert(s[|s| - 1], Sort(s[..|s| - 1]))
  }

  lemma {:induction false} InsertSorted(x: string, s: seq<string>)
    requires Sorted(s) && x !in s
    ensures Sorted(Insert(x, s))
    decreases |s|
  {
    if s == [] {
    } else if Less(x, s[0]) {
      forall j | 1 <= j < |s| ensures Less(x, s[j]) { LessIsTransitive(x, s[0], s[j]); }
    } else {
      LessIsTotal(x, s[0]);
      InsertSorted(x, s[1..]);
      var rest := Insert(x, s[1..]);
      forall j | 0 <= j < |rest| ensures Less(s[0], rest[j]) {
        assert rest[j] in rest;
      }
    }
  }

  lemma {:induction false} SortSorts(s: seq<string>)
    requires NoRepeats(s)
    ensures Sorted(Sort(s))
    decreases |s|
  {
    if s != [] {
      SortSorts(s[..|s| - 1]);
      assert s[|s| - 1] !in s[..|s| - 1];
      InsertSorted(s[|s| - 1], Sort(s[..|s| - 1]));
    }
  }

  lemma {:induction false} SortedIsUnique(a: seq<string>, b: seq<string>)
    requires Sorted(a) && Sorted(b) && forall x :: x in a <==> x in b
    ensures a == b
    decreases |a|
  {
    assert forall i :: 0 <= i < |b| ==> b[i] in a;
    assert forall i :: 0 <= i < |a| ==> a[i] in b;
    if a != [] {
      LessIsTotal(a[0], b[0]);
      SortedTail(a);
      SortedTail(b);
      assert a[0] == b[0];
      SortedIsUnique(a[1..], b[1..]);
    }
  }

  lemma SortedTail(a: seq<string>)
    requires Sorted(a) && a != []
    ensures forall x :: x in a[1..] <==> x in a && x != a[0]
    ensures forall x :: x in a && x != a[0] ==> Less(a[0], x) && !Less(x, a[0])
  {
    LessIsTotal(a[0], a[0]);
    forall x | x in a && x != a[0] ensures Less(a[0], x) && !Less(x, a[0]) {
      var i :| 0 <= i < |a| && a[i] == x;
      LessIsTotal(a[0], x);
    }
    forall i | 1 <= i < |a| ensures a[i] != a[0] {
      LessIsTotal(a[0], a[i]);
    }
  }

  function Without(s: seq<string>, x: string): (r: seq<string>)
    ensures forall y :: y in r <==> y in s && y != x
  {
    if s == [] then []
    else if s[|s| - 1] == x then Without(s[..|s| - 1], x)
    else Without(s[..|s| - 1], x) + [s[|s| - 1]]
  }

  lemma {:induction false} WithoutKeepsSorted(s: seq<string>, x: string)
    requires Sorted(s)
    ensures Sorted(Without(s, x))
    decreases |s|
  {
    if s != [] {
      var n := |s| - 1;
      WithoutKeepsSorted(s[..n], x);
      forall y | y in s[..n] ensures Less(y, s[n]) {
        var i :| 0 <= i < n && s[i] == y;
      }
      assert forall i :: 0 <= i < |Without(s[..n], x)| ==> Without(s[..n], x)[i] in s[..n];
    }
  }

  /** Comparing sorted lists of distinct names is comparing sets. */
  lemma SortedComparisonIsSetComparison(a: seq<string>, x: string, b: seq<string>)
    requires NoRepeats(a) && NoRepeats(b)
    ensures Without(Sort(a), x) == Sort(b) <==> (forall f :: f in b <==> f in a && f != x)
  {
    SortSorts(a);
    SortSorts(b);
    WithoutKeepsSorted(Sort(a), x);
    if forall f :: f in b <==> f in a && f != x { SortedIsUnique(Without(Sort(a), x), Sort(b)); }
    if Without(Sort(a), x) == Sort(b) {
      forall f ensures f in b <==> f in a && f != x {
        assert f in Without(Sort(a), x) <==> f in Sort(b);
      }
    }
  }

  // ---------------------------------------------------------------- the verifier

  /** The only path an artifact of a kind and target may have. */
  function PathFor(kind: Kind, target: string): Option<string> {
    match kind
    case Addon => if target in SUPPORTED_ADDON_TARGETS then Some("prebuilds/" + target + "/bare-arti.bare") else None
    case Sidecar => if target in REQUIRED_SIDECARS then Some(REQUIRED_SIDECARS[target]) else None
  }

  /** What the loop has collected. */
  datatype State = State(paths: seq<string>, identities: set<(Kind, string)>, sidecars: map<string, string>)

  /** One turn of the loop: the first check that fails, if any. */
  function Check(s: State, e: Entry, p: Package): Option<Reason> {
    if e.Malformed? then Some(BadEntry)
    else if e.kind.Addon? && PathFor(Addon, e.target) != Some(e.path) then Some(BadAddon)
    else if e.kind.Sidecar? && PathFor(Sidecar, e.target) != Some(e.path) then Some(BadSidecar)
    else if e.path in s.paths then Some(DuplicatePath)
    else if (e.kind, e.target) in s.identities then Some(DuplicateIdentity)
    else if e.path !in p.listing then Some(MissingFile)
    else if p.hash(e.path) != e.sha256 then Some(BadChecksum)
    else None
  }

  function Note(s: State, e: Entry): State
    requires e.Artifact?
  {
    State(s.paths + [e.path],
          s.identities + {(e.kind, e.target)},
          if e.kind.Sidecar? then s.sidecars[e.target := e.path] else s.sidecars)
  }

  datatype Scan = Stopped(reason: Reason) | Finished(state: State)

  function ScanArtifacts(s: State, artifacts: seq<Entry>, p: Package): Scan
    decreases |artifacts|
  {
    if artifacts == [] then Finished(s)
    else
      var problem := Check(s, artifacts[0], p);
      if problem.Some? then Stopped(problem.value) else ScanArtifacts(Note(s, artifacts[0]), artifacts[1..], p)
  }

  predicate HasAllSidecars(sidecars: map<string, string>) {
    forall target :: target in REQUIRED_SIDECARS ==> target in sidecars && sidecars[target] == REQUIRED_SIDECARS[target]
  }

  function CheckHeader(d: Document, expected: string): Option<Reason> {
    if d.exact && d.schemaVersion == 1 && d.sourceSha == expected && d.addonAbiVersion == 2
        && d.capabilities == ["reachableAddresses"] then None
    else if d.sourceSha != expected then Some(SourceMismatch)
    else if d.addonAbiVersion != 2 then Some(AbiMismatch)
    else Some(BadSchema)
  }

  function CheckLayout(paths: seq<string>, p: Package): Verdict {
    if !p.plain then Rejected(NotPlain)
    else if Without(Sort(p.listing), PROVENANCE) != Sort(paths) then Rejected(LayoutMismatch)
    else Accepted
  }

  const Empty := State([], {}, map[])

  function Verify(document: Option<Document>, expected: string, p: Package): Verdict {
    if !FullSha(expected) then Rejected(BadExpectedSha)
    else if document.None? then Rejected(Unreadable)
    else if CheckHeader(document.value, expected).Some? then Rejected(CheckHeader(document.value, expected).value)
    else
      match ScanArtifacts(Empty, document.value.artifacts, p)
      case Stopped(reason) => Rejected(reason)
      case Finished(s) => if !HasAllSidecars(s.sidecars) then Rejected(SidecarMissing) else CheckLayout(s.paths, p)
  }

  // ---------------------------------------------------------------- what acceptance means

  /** An entry is right on its own. */
  predicate Genuine(e: Entry, p: Package) {
    e.Artifact? && PathFor(e.kind, e.target) == Some(e.path) && e.path in p.listing && p.hash(e.path) == e.sha256
  }

  function PathsOf(artifacts: seq<Entry>): seq<string>
    requires forall i :: 0 <= i < |artifacts| ==> artifacts[i].Artifact?
  {
    seq(|artifacts|, i requires 0 <= i < |artifacts| => artifacts[i].path)
  }

  predicate AllGenuine(artifacts: seq<Entry>, p: Package) {
    forall i :: 0 <= i < |artifacts| ==> Genuine(artifacts[i], p)
  }

  predicate Declares(artifacts: seq<Entry>, kind: Kind, target: string) {
    exists i :: 0 <= i < |artifacts| && artifacts[i].Artifact? && artifacts[i].kind == kind
        && artifacts[i].target == target
  }

  /** The conditions of acceptance, without reference to any order. */
  ghost predicate Sound(artifacts: seq<Entry>, p: Package) {
    && AllGenuine(artifacts, p) && NoRepeats(PathsOf(artifacts)) && p.plain
    && (forall target :: target in REQUIRED_SIDECARS ==> Declares(artifacts, Sidecar, target))
    && (forall f :: f in PathsOf(artifacts) <==> f in p.listing && f != PROVENANCE)
  }

  /** The state after scanning the genuine, pairwise different entries of a prefix. */
  ghost predicate Collected(s: State, artifacts: seq<Entry>, p: Package) {
    && AllGenuine(artifacts, p) && s.paths == PathsOf(artifacts) && NoRepeats(s.paths)
    && (forall k, t :: (k, t) in s.identities <==> Declares(artifacts, k, t))
    && (forall t :: t in s.sidecars <==> Declares(artifacts, Sidecar, t))
    && (forall t :: t in s.sidecars ==> t in REQUIRED_SIDECARS && s.sidecars[t] == REQUIRED_SIDECARS[t])
  }

  lemma DeclaresAppend(before: seq<Entry>, e: Entry, kind: Kind, target: string)
    requires e.Artifact?
    ensures Declares(before + [e], kind, target) <==>
              Declares(before, kind, target) || (e.kind == kind && e.target == target)
  {
    var all := before + [e];
    assert all[|before|] == e;
    if Declares(before, kind, target) {
      var i :| 0 <= i < |before| && before[i].Artifact? && before[i].kind == kind && before[i].target == target;
      assert all[i] == before[i];
    }
  }

  lemma NoteCollects(s: State, before: seq<Entry>, e: Entry, p: Package)
    requires Collected(s, before, p) && Check(s, e, p).None?
    ensures Collected(Note(s, e), before + [e], p)
  {
    assert PathsOf(before + [e]) == PathsOf(before) + [e.path];
    forall k, t ensures Declares(before + [e], k, t) <==> Declares(before, k, t) || (e.kind == k && e.target == t) {
      DeclaresAppend(before, e, k, t);
    }
    hide Declares;
  }

  /** The identity check is redundant: the path check before it has already failed. */
  lemma IdentityIsRedundant(s: State, before: seq<Entry>, e: Entry, p: Package)
    requires Collected(s, before, p)
    ensures Check(s, e, p) != Some(DuplicateIdentity)
  {
    if e.Artifact? && (e.kind, e.target) in s.identities {
      var i :| 0 <= i < |before| && before[i].Artifact? && before[i].kind == e.kind && before[i].target == e.target;
      assert Genuine(before[i], p);
      assert s.paths[i] == before[i].path;
    }
  }

  /** The first entry that fails its check is not genuine or repeats a path. */
  lemma {:induction false} ScanCollects(s: State, before: seq<Entry>, rest: seq<Entry>, p: Package)
    requires Collected(s, before, p)
    ensures match ScanArtifacts(s, rest, p)
      case Finished(t) => Collected(t, before + rest, p)
      case Stopped(reason) => reason != DuplicateIdentity && !Distinguished(before + rest, p)
    decreases |rest|
  {
    if rest == [] {
      assert before + rest == before;
    } else {
      var e := rest[0];
      IdentityIsRedundant(s, before, e, p);
      if Check(s, e, p).None? {
        NoteCollects(s, before, e, p);
        ScanCollects(Note(s, e), before + [e], rest[1..], p);
        assert before + [e] + rest[1..] == before + rest;
      } else {
        RefusalHasCause(s, before, rest, p);
      }
    }
    hide Collected, Check, Note;
  }

  /** Every entry is genuine and no path is declared twice. */
  predicate Distinguished(artifacts: seq<Entry>, p: Package) {
    AllGenuine(artifacts, p) && NoRepeats(PathsOf(artifacts))
  }

  lemma RefusalHasCause(s: State, before: seq<Entry>, rest: seq<Entry>, p: Package)
    requires Collected(s, before, p) && rest != [] && Check(s, rest[0], p).Some?
    ensures !Distinguished(before + rest, p)
  {
    var all := before + rest;
    var n := |before|;
    IdentityIsRedundant(s, before, rest[0], p);
    assert all[n] == rest[0];
    if AllGenuine(all, p) {
      assert Genuine(all[n], p);
      var i :| 0 <= i < n && s.paths[i] == rest[0].path;
      assert all[i] == before[i] && PathsOf(all)[i] == PathsOf(all)[n];
    }
  }

  // ---------------------------------------------------------------- main results

  /** The document has exactly the expected keys, schema 1, the source commit of the package, the
      addon's binary interface 2, and the one capability. */
  predicate RightHeader(d: Document, expected: string) {
    && d.exact && d.schemaVersion == 1 && d.sourceSha == expected && d.addonAbiVersion == 2
    && |d.capabilities| == 1 && d.capabilities[0] == "reachableAddresses"
  }

  lemma HeaderIsRight(d: Document, expected: string)
    ensures CheckHeader(d, expected).None? <==> RightHeader(d, expected)
  {
    assert |d.capabilities| == 1 && d.capabilities[0] == "reachableAddresses" ==>
        d.capabilities == ["reachableAddresses"];
  }

  /** What is wrong with the artifact at `i`, given those before it. */
  function EntryFault(artifacts: seq<Entry>, i: nat, p: Package): Option<Reason>
    requires i < |artifacts|
  {
    var e := artifacts[i];
    if e.Malformed? then Some(BadEntry)
    else if PathFor(e.kind, e.target) != Some(e.path) then Some(if e.kind.Addon? then BadAddon else BadSidecar)
    else if exists j :: 0 <= j < i && artifacts[j].Artifact? && artifacts[j].path == e.path then Some(DuplicatePath)
    else if e.path !in p.listing then Some(MissingFile)
    else if p.hash(e.path) != e.sha256 then Some(BadChecksum)
    else None
  }

  lemma CheckFinds(s: State, before: seq<Entry>, e: Entry, rest: seq<Entry>, p: Package)
    requires Collected(s, before, p)
    ensures |before| < |before + [e] + rest| && Check(s, e, p) == EntryFault(before + [e] + rest, |before|, p)
  {
    var all := before + [e] + rest;
    assert all[|before|] == e && forall j :: 0 <= j < |before| ==> all[j] == before[j] && s.paths[j] == before[j].path;
    if e.Artifact? && PathFor(e.kind, e.target) == Some(e.path) {
      IdentityIsRedundant(s, before, e, p);
      assert e.path in s.paths <==> exists j :: 0 <= j < |before| && all[j].Artifact? && all[j].path == e.path;
    }
    hide Declares, NoRepeats;
  }

  /** The scan stops at the first artifact with a fault, and reports that fault. */
  lemma {:induction false} ScanReports(s: State, before: seq<Entry>, rest: seq<Entry>, p: Package, i: nat)
    requires Collected(s, before, p) && i < |rest|
    requires forall j :: |before| <= j < |before| + i ==> EntryFault(before + rest, j, p).None?
    requires EntryFault(before + rest, |before| + i, p).Some?
    ensures ScanArtifacts(s, rest, p) == Stopped(EntryFault(before + rest, |before| + i, p).value)
    decreases i
  {
    assert before + [rest[0]] + rest[1..] == before + rest;
    CheckFinds(s, before, rest[0], rest[1..], p);
    if i > 0 {
      assert EntryFault(before + rest, |before|, p).None?;
      NoteCollects(s, before, rest[0], p);
      hide EntryFault, Collected, Check;
      ScanReports(Note(s, rest[0]), before + [rest[0]], rest[1..], p, i - 1);
    }
  }

  /** Why a document is rejected: for its header, by the first of its parts that is wrong, or else for
      its first artifact with a fault. */
  lemma RejectionsExactly(d: Document, expected: string, p: Package, i: nat)
    requires FullSha(expected)
    ensures !RightHeader(d, expected) ==>
              Verify(Some(d), expected, p) == Rejected(
                if d.sourceSha != expected then SourceMismatch else if d.addonAbiVersion != 2 then AbiMismatch
                    else BadSchema)
    ensures RightHeader(d, expected) && i < |d.artifacts| && EntryFault(d.artifacts, i, p).Some?
            && (forall j :: 0 <= j < i ==> EntryFault(d.artifacts, j, p).None?) ==>
              Verify(Some(d), expected, p) == Rejected(EntryFault(d.artifacts, i, p).value)
  {
    assert Collected(Empty, [], p);
    assert [] + d.artifacts == d.artifacts;
    hide FullSha, EntryFault, ScanArtifacts, Collected, CheckLayout, HasAllSidecars;
    if RightHeader(d, expected) && i < |d.artifacts| && EntryFault(d.artifacts, i, p).Some?
        && (forall j :: 0 <= j < i ==> EntryFault(d.artifacts, j, p).None?) {
      ScanReports(Empty, [], d.artifacts, p, i);
    }
  }

  lemma FaultlessIsDistinguished(artifacts: seq<Entry>, p: Package)
    requires forall i :: 0 <= i < |artifacts| ==> EntryFault(artifacts, i, p).None?
    ensures Distinguished(artifacts, p)
  {
    forall i | 0 <= i < |artifacts| ensures Genuine(artifacts[i], p) {
      assert EntryFault(artifacts, i, p).None?;
    }
    forall i, j | 0 <= i < j < |artifacts| ensures PathsOf(artifacts)[i] != PathsOf(artifacts)[j] {
      assert EntryFault(artifacts, j, p).None? && Genuine(artifacts[i], p);
    }
  }

  /** And a document without any such fault: for a required sidecar that is missing, else for an entry
      on disk that is no plain file, else for a file that is not declared or the other way round. */
  lemma LayoutRejectionsExactly(d: Document, expected: string, p: Package)
    requires FullSha(expected) && RightHeader(d, expected) && NoRepeats(p.listing)
    requires forall i :: 0 <= i < |d.artifacts| ==> EntryFault(d.artifacts, i, p).None?
    ensures AllGenuine(d.artifacts, p)
    ensures Verify(Some(d), expected, p) ==
              if exists target :: target in REQUIRED_SIDECARS && !Declares(d.artifacts, Sidecar, target) then
                Rejected(SidecarMissing)
              else if !p.plain then Rejected(NotPlain)
              else if !(forall f :: f in PathsOf(d.artifacts) <==> f in p.listing && f != PROVENANCE) then
                Rejected(LayoutMismatch)
              else Accepted
  {
    FaultlessIsDistinguished(d.artifacts, p);
    HeaderIsRight(d, expected);
    assert Collected(Empty, [], p);
    ScanCollects(Empty, [], d.artifacts, p);
    assert [] + d.artifacts == d.artifacts;
    hide FullSha, EntryFault, ScanArtifacts, HasAllSidecars, CheckHeader, RightHeader, Genuine, Declares, Sort, Without;
    var s := ScanArtifacts(Empty, d.artifacts, p).state;
    SidecarsDeclared(s, d.artifacts, p);
    SortedComparisonIsSetComparison(p.listing, PROVENANCE, s.paths);
  }

  /** The name of a commit: forty lower-case hexadecimal digits. */
  predicate CommitName(s: string) {
    |s| == 40 && forall i :: 0 <= i < 40 ==> s[i] in "0123456789abcdef"
  }

  lemma FullShaIsCommitName(s: string)
    ensures FullSha(s) <==> CommitName(s)
  {
    assert forall c: char :: c in "0123456789abcdef" <==> 'a' <= c <= 'f' || '0' <= c <= '9';
    assert FullSha(s) ==> forall i :: 0 <= i < |s| ==> s[i] in s;
    if CommitName(s) {
      forall c | c in s ensures 'a' <= c <= 'f' || '0' <= c <= '9' {
        var i :| 0 <= i < |s| && s[i] == c;
      }
    }
  }

  /** The package is accepted exactly when the expected name is a commit's, the document's header is right, every
      entry is genuine, the declared paths are pairwise different and are the files on disk, and no
      required sidecar is missing. */
  lemma AcceptedExactlyWhenSound(d: Document, expected: string, p: Package)
    requires NoRepeats(p.listing)
    ensures Verify(Some(d), expected, p) == Accepted <==>
      CommitName(expected) && RightHeader(d, expected) && Sound(d.artifacts, p)
  {
    FullShaIsCommitName(expected);
    HeaderIsRight(d, expected);
    ContentsAreSound(d.artifacts, p);
    hide CheckHeader, RightHeader, Sound, FullSha, CommitName, ScanArtifacts, CheckLayout, HasAllSidecars;
  }

  lemma ContentsAreSound(artifacts: seq<Entry>, p: Package)
    requires NoRepeats(p.listing)
    ensures Sound(artifacts, p) <==>
              match ScanArtifacts(Empty, artifacts, p)
              case Stopped(_) => false
              case Finished(s) => HasAllSidecars(s.sidecars) && CheckLayout(s.paths, p) == Accepted
  {
    assert Collected(Empty, [], p);
    ScanCollects(Empty, [], artifacts, p);
    assert [] + artifacts == artifacts;
    hide Collected, ScanArtifacts, Sound, HasAllSidecars, CheckLayout;
    match ScanArtifacts(Empty, artifacts, p)
    case Stopped(_) => StoppedIsUnsound(artifacts, p);
    case Finished(s) => CollectedIsSound(s, artifacts, p);
  }

  lemma StoppedIsUnsound(artifacts: seq<Entry>, p: Package)
    requires !Distinguished(artifacts, p)
    ensures !Sound(artifacts, p)
  {
    hide AllGenuine, NoRepeats, Declares;
  }

  lemma CollectedIsSound(s: State, artifacts: seq<Entry>, p: Package)
    requires Collected(s, artifacts, p) && NoRepeats(p.listing)
    ensures Sound(artifacts, p) <==> HasAllSidecars(s.sidecars) && CheckLayout(s.paths, p) == Accepted
  {
    SidecarsDeclared(s, artifacts, p);
    SortedComparisonIsSetComparison(p.listing, PROVENANCE, s.paths);
    hide HasAllSidecars, Sort, Without, NoRepeats, Declares, Genuine;
  }

  lemma SidecarsDeclared(s: State, artifacts: seq<Entry>, p: Package)
    requires Collected(s, artifacts, p)
    ensures HasAllSidecars(s.sidecars) <==>
              forall target :: target in REQUIRED_SIDECARS ==> Declares(artifacts, Sidecar, target)
  {
    hide Declares, AllGenuine, NoRepeats;
  }

  /** No document makes the verifier report a duplicate identity. */
  lemma NeverDuplicateIdentity(document: Option<Document>, expected: string, p: Package)
    ensures Verify(document, expected, p) != Rejected(DuplicateIdentity)
  {
    if document.Some? {
      assert Collected(Empty, [], p);
      ScanCollects(Empty, [], document.value.artifacts, p);
      hide ScanArtifacts, Sort, FullSha;
    }
  }

  lemma TwiceMeansTwo(s: seq<Entry>, i: nat, j: nat)
    requires i < j < |s| && s[i] == s[j]
    ensures multiset(s)[s[i]] >= 2
  {
    assert s == s[..j] + [s[j]] + s[j + 1..];
    assert s[..j][i] == s[i];
    assert s[i] in multiset(s[..j]);
  }

  lemma {:induction false} TwoMeansTwice(s: seq<Entry>, e: Entry)
    requires multiset(s)[e] >= 2
    ensures exists i, j :: 0 <= i < j < |s| && s[i] == e && s[j] == e
    decreases |s|
  {
    var n := |s| - 1;
    assert s == s[..n] + [s[n]];
    if s[n] == e {
      assert e in multiset(s[..n]);
      var i :| 0 <= i < n && s[..n][i] == e;
      assert s[i] == e && s[n] == e;
    } else {
      TwoMeansTwice(s[..n], e);
      var i, j :| 0 <= i < j < n && s[..n][i] == e && s[..n][j] == e;
      assert s[i] == e && s[j] == e;
    }
  }

  lemma TwiceRepeatsPath(s: seq<Entry>, e: Entry, p: Package)
    requires AllGenuine(s, p) && multiset(s)[e] >= 2
    ensures !NoRepeats(PathsOf(s))
  {
    TwoMeansTwice(s, e);
    var k, l :| 0 <= k < l < |s| && s[k] == e && s[l] == e;
    assert PathsOf(s)[k] == PathsOf(s)[l];
  }

  lemma DistinctPathsSurvive(a: seq<Entry>, b: seq<Entry>, p: Package)
    requires multiset(a) == multiset(b) && AllGenuine(a, p) && AllGenuine(b, p) && NoRepeats(PathsOf(a))
    ensures NoRepeats(PathsOf(b))
  {
    forall i, j | 0 <= i < j < |b| ensures PathsOf(b)[i] != PathsOf(b)[j] {
      assert b[i] in multiset(b) && b[j] in multiset(b);
      if b[i] == b[j] {
        TwiceMeansTwo(b, i, j);
        TwiceRepeatsPath(a, b[i], p);
      } else {
        var k :| 0 <= k < |a| && a[k] == b[i];
        var l :| 0 <= l < |a| && a[l] == b[j];
        assert PathsOf(a)[k] == b[i].path && PathsOf(a)[l] == b[j].path;
      }
    }
  }

  lemma SameMembers(a: seq<Entry>, b: seq<Entry>, p: Package)
    requires multiset(a) == multiset(b) && AllGenuine(a, p)
    ensures AllGenuine(b, p)
    ensures forall f :: f in PathsOf(b) ==> f in PathsOf(a)
    ensures forall kind, target :: Declares(a, kind, target) ==> Declares(b, kind, target)
  {
    forall i | 0 <= i < |b| ensures Genuine(b[i], p) && b[i].path in PathsOf(a) {
      assert b[i] in multiset(a);
      var k :| 0 <= k < |a| && a[k] == b[i];
      assert Genuine(a[k], p);
      assert PathsOf(a)[k] == b[i].path;
    }
    forall kind, target | Declares(a, kind, target) ensures Declares(b, kind, target) {
      var k :| 0 <= k < |a| && a[k].Artifact? && a[k].kind == kind && a[k].target == target;
      assert a[k] in multiset(b);
      var i :| 0 <= i < |b| && b[i] == a[k];
    }
  }

  lemma SoundSurvives(a: seq<Entry>, b: seq<Entry>, p: Package)
    requires multiset(a) == multiset(b) && Sound(a, p)
    ensures Sound(b, p)
  {
    SameMembers(a, b, p);
    SameMembers(b, a, p);
    DistinctPathsSurvive(a, b, p);
    hide Genuine, Declares, NoRepeats;
  }

  /** Acceptance does not depend on the order of the declared artifacts. */
  lemma OrderDoesNotMatter(d: Document, reordered: seq<Entry>, expected: string, p: Package)
    requires NoRepeats(p.listing) && multiset(reordered) == multiset(d.artifacts)
    ensures Verify(Some(d), expected, p) == Accepted <==>
              Verify(Some(d.(artifacts := reordered)), expected, p) == Accepted
  {
    AcceptedExactlyWhenSound(d, expected, p);
    AcceptedExactlyWhenSound(d.(artifacts := reordered), expected, p);
    if Sound(d.artifacts, p) { SoundSurvives(d.artifacts, reordered, p); }
    if Sound(reordered, p) { SoundSurvives(reordered, d.artifacts, p); }
    hide Verify, Sound;
  }

  // ---------------------------------------------------------------- the source's loop

  /** verifyPackagePrebuilds. */
  method VerifyPackagePrebuilds(document: Option<Document>, expected: string, p: Package) returns (v: Verdict)
    ensures v == Verify(document, expected, p)
  {
    hide Sort, FullSha;
    if !FullSha(expected) { return Rejected(BadExpectedSha); }
    if document.None? { return Rejected(Unreadable); }
    var d := document.value;
    var header := CheckHeader(d, expected);
    if header.Some? { return Rejected(header.value); }
    var paths: seq<string>, identities: set<(Kind, string)>, sidecars: map<string, string> := [], {}, map[];
    for i := 0 to |d.artifacts|
      invariant ScanArtifacts(Empty, d.artifacts, p)
                == ScanArtifacts(State(paths, identities, sidecars), d.artifacts[i..], p)
    {
      var e := d.artifacts[i];
      var problem := Check(State(paths, identities, sidecars), e, p);
      assert d.artifacts[i..][1..] == d.artifacts[i + 1..];
      if problem.Some? { return Rejected(problem.value); }
      paths := paths + [e.path];
      identities := identities + {(e.kind, e.target)};
      if e.kind.Sidecar? { sidecars := sidecars[e.target := e.path]; }
    }
    if !HasAllSidecars(sidecars) { return Rejected(SidecarMissing); }
    v := CheckLayout(paths, p);
  }
}
