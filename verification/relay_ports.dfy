/** Reachable relay ports: validation and canonical form in JavaScript
    (lib/reachable-addresses.js), and the serialised list on its way to Rust by the addon ABI
    and by the sidecar's environment. */
module RelayPorts {
  import opened Optional

  datatype Result<+T> = Ok(value: T) | Error

  /** What a caller may pass: nothing, something that is no array, or an array. */
  datatype Element = Text(text: string) | NotText

  datatype Value = Omitted | NotArray | Array(elements: seq<Element>)

  predicate IsDigit(c: char) {
    '0' <= c <= '9'
  }

  /** The number a string of digits denotes. */
  function Number(digits: string): nat
    requires forall c :: c in digits ==> IsDigit(c)
  {
    if digits == "" then 0
    else
      var last := digits[|digits| - 1];
      assert IsDigit(last);
      10 * Number(digits[..|digits| - 1]) + (last as int - '0' as int)
  }

  /** The source's regular expression: an asterisk, a colon, and one to five digits without a
      leading zero. */
  predicate Shaped(s: string) {
    && 3 <= |s| <= 7 && s[0] == '*' && s[1] == ':' && s[2] != '0'
    && forall c :: c in s[2..] ==> IsDigit(c)
  }

  function PortOf(s: string): nat
    requires Shaped(s)
  {
    Number(s[2..])
  }

  predicate IsPattern(s: string) {
    Shaped(s) && PortOf(s) <= 65535
  }

  predicate Acceptable(e: Element) {
    e.Text? && IsPattern(e.text)
  }

  predicate AllAcceptable(elements: seq<Element>) {
    forall i :: 0 <= i < |elements| ==> Acceptable(elements[i])
  }

  predicate Accepted(v: Value) {
    v.Omitted? || (v.Array? && 1 <= |v.elements| <= 64 && AllAcceptable(v.elements))
  }

  predicate AllPatterns(s: seq<string>) {
    forall i :: 0 <= i < |s| ==> IsPattern(s[i])
  }

  // ---------------------------------------------------------------- canonical form

  /** The values of a JavaScript Set, in order of first insertion. */
  function Distinct(s: seq<string>): (r: seq<string>)
    ensures forall x :: x in r <==> x in s
    ensures forall i, j :: 0 <= i < j < |r| ==> r[i] != r[j]
  {
    if s == [] then []
    else
      var rest := Distinct(s[..|s| - 1]);
      if s[|s| - 1] in rest then rest else rest + [s[|s| - 1]]
  }

  /** Inserts before the first larger port. */
  function Insert(x: string, s: seq<string>): (r: seq<string>)
    requires IsPattern(x) && AllPatterns(s)
    ensures AllPatterns(r) && |r| == |s| + 1
    ensures forall y :: y in r <==> y == x || y in s
    decreases |s|
  {
    if s == [] || PortOf(x) < PortOf(s[0]) then [x] + s
    else
      var rest := Insert(x, s[1..]);
      assert forall y :: y in s <==> y == s[0] || y in s[1..];
      [s[0]] + rest
  }

  /** A stable sort by port. */
  function SortByPort(s: seq<string>): (r: seq<string>)
    requires AllPatterns(s)
    ensures AllPatterns(r) && |r| == |s|
    ensures forall y :: y in r <==> y in s
    decreases |s|
  {
    if s == [] then []
    else
      assert forall y :: y in s <==> y in s[..|s| - 1] || y == s[|s| - 1];
      Insert(s[|s| - 1], SortByPort(s[..|s| - 1]))
  }

  function Canonical(s: seq<string>): (r: seq<string>)
    requires AllPatterns(s)
    ensures AllPatterns(r)
    ensures forall y :: y in r <==> y in s
  {
    PatternsSurvive(s);
    SortByPort(Distinct(s))
  }

  lemma PatternsSurvive(s: seq<string>)
    requires AllPatterns(s)
    ensures AllPatterns(Distinct(s))
  {
    forall i | 0 <= i < |Distinct(s)| ensures IsPattern(Distinct(s)[i]) {
      assert Distinct(s)[i] in s;
    }
  }

  function Texts(elements: seq<Element>): (r: seq<string>)
    requires AllAcceptable(elements)
    ensures |r| == |elements| && AllPatterns(r)
    ensures forall i :: 0 <= i < |r| ==> elements[i] == Text(r[i])
  {
    seq(|elements|, i requires 0 <= i < |elements| => assert Acceptable(elements[i]); elements[i].text)
  }

  /** normalizeReachableAddresses. */
  function Normalize(v: Value): Result<Option<seq<string>>> {
    if v.Omitted? then Ok(None)
    else if Accepted(v) then Ok(Some(Canonical(Texts(v.elements))))
    else Error
  }

  predicate Increasing(s: seq<string>)
    requires AllPatterns(s)
  {
    forall i, j :: 0 <= i < j < |s| ==> PortOf(s[i]) < PortOf(s[j])
  }

  // ---------------------------------------------------------------- ports determine patterns

  lemma {:induction false} SameNumber(a: string, b: string)
    requires forall c :: c in a ==> IsDigit(c)
    requires forall c :: c in b ==> IsDigit(c)
    requires (a != "" ==> a[0] != '0') && (b != "" ==> b[0] != '0') && Number(a) == Number(b)
    ensures a == b
    decreases |a|
  {
    NumberIsZero(a);
    NumberIsZero(b);
    if a != "" && b != "" {
      var n, m := |a| - 1, |b| - 1;
      assert IsDigit(a[n]) && IsDigit(b[m]);
      assert Number(a) == 10 * Number(a[..n]) + (a[n] as int - '0' as int);
      assert Number(b) == 10 * Number(b[..m]) + (b[m] as int - '0' as int);
      SameNumber(a[..n], b[..m]);
      assert a == a[..n] + [a[n]] && b == b[..m] + [b[m]];
    }
  }

  lemma {:induction false} NumberIsZero(a: string)
    requires forall c :: c in a ==> IsDigit(c)
    requires a != "" ==> a[0] != '0'
    ensures Number(a) == 0 <==> a == ""
    decreases |a|
  {
    if a != "" {
      var n := |a| - 1;
      assert IsDigit(a[n]);
      NumberIsZero(a[..n]);
    }
  }

  /** Two patterns with the same port are the same text. */
  lemma SamePort(x: string, y: string)
    requires IsPattern(x) && IsPattern(y) && PortOf(x) == PortOf(y)
    ensures x == y
  {
    SameNumber(x[2..], y[2..]);
    assert x == x[..2] + x[2..] && y == y[..2] + y[2..];
  }

  lemma {:induction false} InsertIncreasing(x: string, s: seq<string>)
    requires IsPattern(x) && AllPatterns(s) && Increasing(s) && x !in s
    ensures Increasing(Insert(x, s))
    decreases |s|
  {
    if s != [] {
      if PortOf(x) < PortOf(s[0]) {
      } else {
        if PortOf(x) == PortOf(s[0]) { SamePort(x, s[0]); }
        InsertIncreasing(x, s[1..]);
        var rest := Insert(x, s[1..]);
        forall j | 0 <= j < |rest| ensures PortOf(s[0]) < PortOf(rest[j]) {
          assert rest[j] in rest;
        }
      }
    }
  }

  lemma {:induction false} SortIncreasing(s: seq<string>)
    requires AllPatterns(s) && forall i, j :: 0 <= i < j < |s| ==> s[i] != s[j]
    ensures Increasing(SortByPort(s))
    decreases |s|
  {
    if s != [] {
      SortIncreasing(s[..|s| - 1]);
      assert s[|s| - 1] !in s[..|s| - 1];
      InsertIncreasing(s[|s| - 1], SortByPort(s[..|s| - 1]));
    }
  }

  /** The canonical form lists the same patterns with strictly increasing ports. */
  lemma CanonicalIncreases(s: seq<string>)
    requires AllPatterns(s)
    ensures Increasing(Canonical(s))
  {
    PatternsSurvive(s);
    SortIncreasing(Distinct(s));
  }

  /** Strictly increasing lists of the same patterns are equal. */
  lemma {:induction false} IncreasingIsUnique(a: seq<string>, b: seq<string>)
    requires AllPatterns(a) && AllPatterns(b) && Increasing(a) && Increasing(b)
    requires forall x :: x in a <==> x in b
    ensures a == b
    decreases |a|
  {
    if a == [] {
      assert forall i :: 0 <= i < |b| ==> b[i] in a;
    } else {
      assert a[0] in b;
      assert b[0] in a;
      assert a[0] == b[0];
      TailMembers(a);
      TailMembers(b);
      IncreasingIsUnique(a[1..], b[1..]);
    }
  }

  lemma TailMembers(a: seq<string>)
    requires AllPatterns(a) && Increasing(a) && a != []
    ensures forall x :: x in a[1..] <==> x in a && x != a[0]
  {
  }

  // ---------------------------------------------------------------- what is accepted

  /** The decimal notation of a number. */
  function Decimal(n: nat): string {
    if n < 10 then ['0' + n as char] else Decimal(n / 10) + ['0' + (n % 10) as char]
  }

  lemma {:induction false} DecimalDenotes(n: nat)
    ensures forall c :: c in Decimal(n) ==> IsDigit(c)
    ensures Number(Decimal(n)) == n && Decimal(n) != "" && (n > 0 ==> Decimal(n)[0] != '0')
    decreases n
  {
    if n < 10 {
      assert Decimal(n)[..0] == "";
      assert Number("") == 0;
    } else {
      DecimalDenotes(n / 10);
      var rest, last := Decimal(n / 10), '0' + (n % 10) as char;
      assert (rest + [last])[..|rest|] == rest;
    }
  }

  lemma {:induction false} DecimalIsShort(n: nat)
    requires n < 100_000
    ensures |Decimal(n)| <= 5
  {
    assert n >= 10 ==> |Decimal(n)| == |Decimal(n / 10)| + 1;
    assert n >= 100 ==> |Decimal(n / 10)| == |Decimal(n / 10 / 10)| + 1;
    assert n >= 1_000 ==> |Decimal(n / 10 / 10)| == |Decimal(n / 10 / 10 / 10)| + 1;
    assert n >= 10_000 ==> |Decimal(n / 10 / 10 / 10)| == |Decimal(n / 10 / 10 / 10 / 10)| + 1;
  }

  /** The text is an asterisk, a colon and the decimal notation of a port other than zero. */
  predicate NamesPort(s: string) {
    exists port :: 1 <= port <= 65535 && s == PatternFor(port)
  }

  function PatternFor(port: nat): string {
    "*:" + Decimal(port)
  }

  /** The source's expression and bound accept exactly these texts. */
  lemma PatternsNamePorts(s: string)
    ensures IsPattern(s) <==> NamesPort(s)
  {
    if IsPattern(s) {
      var port := PortOf(s);
      NumberIsZero(s[2..]);
      DecimalDenotes(port);
      SameNumber(s[2..], Decimal(port));
      assert s == s[..2] + s[2..] && s[..2] == "*:";
      assert s == PatternFor(port);
    }
    if NamesPort(s) {
      var port :| 1 <= port <= 65535 && s == PatternFor(port);
      DecimalDenotes(port);
      DecimalIsShort(port);
      assert s[2..] == Decimal(port);
    }
  }

  /** A value is accepted exactly when it is omitted or lists from 1 to 64 such texts. */
  lemma AcceptedExactly(v: Value)
    ensures Normalize(v).Ok? <==>
              v.Omitted?
              || (v.Array? && 1 <= |v.elements| <= 64
                  && forall i :: 0 <= i < |v.elements| ==> v.elements[i].Text? && NamesPort(v.elements[i].text))
  {
    if v.Array? {
      forall i | 0 <= i < |v.elements| && v.elements[i].Text?
        ensures IsPattern(v.elements[i].text) <==> NamesPort(v.elements[i].text)
      {
        PatternsNamePorts(v.elements[i].text);
      }
      assert forall i :: 0 <= i < |v.elements| ==>
          (Acceptable(v.elements[i]) <==> v.elements[i].Text? && IsPattern(v.elements[i].text));
      hide IsPattern, NamesPort, Canonical;
    }
  }

  // ---------------------------------------------------------------- main results

  /** Normalisation of what is accepted: ports strictly increase, none is lost or added. */
  lemma NormalizedIsCanonical(v: Value)
    requires Accepted(v) && v.Array?
    ensures Normalize(v).Ok? && Normalize(v).value.Some?
    ensures var r := Normalize(v).value.value;
      AllPatterns(r) && Increasing(r) && forall x :: x in r <==> Text(x) in v.elements
  {
    CanonicalIncreases(Texts(v.elements));
    TextsMembers(v.elements);
  }

  lemma TextsMembers(elements: seq<Element>)
    requires AllAcceptable(elements)
    ensures forall x :: x in Texts(elements) <==> Text(x) in elements
  {
    var t := Texts(elements);
    forall x | Text(x) in elements ensures x in t {
      var i :| 0 <= i < |elements| && elements[i] == Text(x);
      assert t[i] == x;
    }
    forall x | x in t ensures Text(x) in elements {
      var i :| 0 <= i < |t| && t[i] == x;
      assert elements[i] == Text(x);
    }
  }

  function Elements(s: seq<string>): seq<Element> {
    seq(|s|, i requires 0 <= i < |s| => Text(s[i]))
  }

  /** The canonical form is never longer than the input, so it is accepted again. */
  lemma {:induction false} DistinctShortens(s: seq<string>)
    ensures |Distinct(s)| <= |s| && (s != [] ==> Distinct(s) != [])
    decreases |s|
  {
    if s != [] { DistinctShortens(s[..|s| - 1]); }
  }

  /** Normalising again changes nothing. */
  lemma NormalizeIsIdempotent(v: Value)
    requires Accepted(v) && v.Array?
    ensures Normalize(Array(Elements(Normalize(v).value.value))) == Normalize(v)
  {
    var r := Normalize(v).value.value;
    var again := Array(Elements(r));
    NormalizedIsCanonical(v);
    DistinctShortens(Texts(v.elements));
    assert forall i :: 0 <= i < |r| ==> again.elements[i] == Text(r[i]);
    assert Accepted(again);
    assert Texts(again.elements) == r;
    CanonicalIncreases(r);
    IncreasingIsUnique(Canonical(r), r);
  }

  function Ports(elements: seq<Element>): set<nat>
    requires AllAcceptable(elements)
  {
    set x | x in Texts(elements) && IsPattern(x) :: PortOf(x)
  }

  /** Two accepted inputs have equal canonical forms, and so match, exactly when they name the
      same set of ports. */
  lemma MatchMeansSamePorts(u: Value, v: Value)
    requires Accepted(u) && u.Array? && Accepted(v) && v.Array?
    ensures Normalize(u).value.value == Normalize(v).value.value <==> Ports(u.elements) == Ports(v.elements)
  {
    NormalizedIsCanonical(u);
    NormalizedIsCanonical(v);
    var a, b := Normalize(u).value.value, Normalize(v).value.value;
    PortsOfCanonical(u);
    PortsOfCanonical(v);
    if Ports(u.elements) == Ports(v.elements) {
      CoveredBy(a, b, Ports(v.elements));
      CoveredBy(b, a, Ports(u.elements));
      IncreasingIsUnique(a, b);
    }
  }

  /** The ports of the input are the ports of its canonical form. */
  lemma PortsOfCanonical(v: Value)
    requires Accepted(v) && v.Array?
    ensures forall p :: p in Ports(v.elements) <==>
              exists x :: x in Normalize(v).value.value && IsPattern(x) && PortOf(x) == p
  {
    NormalizedIsCanonical(v);
    TextsMembers(v.elements);
  }

  lemma CoveredBy(a: seq<string>, b: seq<string>, ports: set<nat>)
    requires AllPatterns(a) && AllPatterns(b)
    requires forall x :: x in a && IsPattern(x) ==> PortOf(x) in ports
    requires forall p :: p in ports ==> exists x :: x in b && IsPattern(x) && PortOf(x) == p
    ensures forall x :: x in a ==> x in b
  {
    forall x | x in a ensures x in b {
      var y :| y in b && IsPattern(y) && PortOf(y) == PortOf(x);
      SamePort(x, y);
    }
  }

  // ---------------------------------------------------------------- serialisation

  /** The list joined with commas. */
  function Join(s: seq<string>): string {
    if s == [] then "" else if |s| == 1 then s[0] else s[0] + "," + Join(s[1..])
  }

  function FindComma(s: string): (i: nat)
    ensures i <= |s|
    ensures forall k :: 0 <= k < i ==> s[k] != ','
    ensures i < |s| ==> s[i] == ','
  {
    if s == "" || s[0] == ',' then 0 else 1 + FindComma(s[1..])
  }

  /** The Rust split on commas: always at least one part. */
  function Split(s: string): seq<string>
    decreases |s|
  {
    var i := FindComma(s);
    if i == |s| then [s] else [s[..i]] + Split(s[i + 1..])
  }

  /** What the addon passes through the C ABI. */
  function AddonString(normalized: Option<seq<string>>): string {
    if normalized.None? then "" else Join(normalized.value)
  }

  /** The environment variable of the sidecar, absent when omitted. */
  function SidecarVariable(normalized: Option<seq<string>>): Option<string> {
    if normalized.None? then None else Some(Join(normalized.value))
  }

  function NonEmptyParts(parts: seq<string>): Result<Option<seq<string>>> {
    if "" in parts then Error else Ok(Some(parts))
  }

  /** copy_options of the ABI. */
  function AbiAddresses(s: string): Result<Option<seq<string>>> {
    if s == "" then Ok(None) else NonEmptyParts(Split(s))
  }

  /** reachable_addresses_from_serialized of the sidecar. */
  function SidecarAddresses(variable: Option<string>): Result<Option<seq<string>>> {
    if variable.None? then Ok(None)
    else if variable.value == "" then Error
    else NonEmptyParts(Split(variable.value))
  }

  lemma FirstComma(s: string, rest: string)
    requires ',' !in s
    ensures FindComma(s) == |s| && FindComma(s + "," + rest) == |s|
  {
    var t := s + "," + rest;
    assert forall k :: 0 <= k < |s| ==> s[k] in s && t[k] == s[k];
    assert t[|s|] == ',';
  }

  /** Splitting undoes joining. */
  lemma {:induction false} SplitUndoesJoin(s: seq<string>)
    requires s != [] && forall i :: 0 <= i < |s| ==> ',' !in s[i]
    ensures Split(Join(s)) == s
    decreases |s|
  {
    if |s| == 1 {
      FirstComma(s[0], "");
      assert s == [s[0]];
    } else {
      var rest := Join(s[1..]);
      var all := s[0] + "," + rest;
      FirstComma(s[0], rest);
      SplitUndoesJoin(s[1..]);
      assert all[..|s[0]|] == s[0] && all[|s[0]| + 1..] == rest;
    }
  }

  lemma PatternsHaveNoComma(s: seq<string>)
    requires AllPatterns(s)
    ensures forall i :: 0 <= i < |s| ==> ',' !in s[i] && s[i] != ""
  {
    forall i | 0 <= i < |s| ensures ',' !in s[i] {
      assert IsPattern(s[i]);
      assert s[i] == "*:" + s[i][2..];
      assert !IsDigit(',');
    }
  }

  /** For every accepted value, both routes deliver to Rust exactly the normalised list, and
      an omitted list arrives as None. */
  lemma BothRoutesDeliver(v: Value)
    requires Accepted(v)
    ensures AbiAddresses(AddonString(Normalize(v).value)) == Normalize(v)
    ensures SidecarAddresses(SidecarVariable(Normalize(v).value)) == Normalize(v)
    ensures Normalize(v) == Ok(None) <==> v.Omitted?
  {
    if v.Array? {
      var r := Normalize(v).value.value;
      NormalizedIsCanonical(v);
      DistinctShortens(Texts(v.elements));
      PatternsHaveNoComma(r);
      SplitUndoesJoin(r);
      JoinIsNotEmpty(r);
    }
  }

  lemma JoinIsNotEmpty(s: seq<string>)
    requires s != [] && s[0] != ""
    ensures Join(s) != ""
  {
    assert |s| > 1 ==> |Join(s)| > |s[0]|;
  }

  // ---------------------------------------------------------------- the source's loops

  /** normalizeReachableAddresses: one element at a time, then the set and the sort. */
  method NormalizeReachableAddresses(v: Value) returns (r: Result<Option<seq<string>>>)
    ensures r == Normalize(v)
  {
    if v.Omitted? { return Ok(None); }
    if v.NotArray? || |v.elements| < 1 || |v.elements| > 64 { return Error; }
    var snapshot: seq<string> := [];
    for i := 0 to |v.elements|
      invariant |snapshot| == i
      invariant forall k :: 0 <= k < i ==> Acceptable(v.elements[k]) && snapshot[k] == v.elements[k].text
    {
      if !v.elements[i].Text? || !IsPattern(v.elements[i].text) {
        return Error;
      }
      snapshot := snapshot + [v.elements[i].text];
    }
    assert snapshot == Texts(v.elements);
    r := Ok(Some(Canonical(snapshot)));
  }

  /** matchingReachableAddresses. */
  method MatchingReachableAddresses(left: Option<seq<string>>, right: Option<seq<string>>) returns (same: bool)
    ensures same <==> left == right
  {
    if left.None? || right.None? { return left.None? && right.None?; }
    if |left.value| != |right.value| { return false; }
    for i := 0 to |left.value|
      invariant left.value[..i] == right.value[..i]
    {
      if left.value[i] != right.value[i] { return false; }
    }
    assert left.value == left.value[..|left.value|] && right.value == right.value[..|left.value|];
    return true;
  }
}
