/** The audit's release gate: the findings of every sample merged, and the triaged file's rows held
    against them. */
module Gate {
  import opened Options
  import opened Sequences
  import opened Text
  import opened Triage

  type Row = map<string, string>

  /** A finding is known by its id, its question and its class. */
  datatype Identity = Identity(id: string, question: string, class_: string)

  function IdentityOf(f: Finding): Identity {
    Identity(f.id, f.question, f.class_)
  }

  function Column(r: Row, name: string): string {
    if name in r then r[name] else ""
  }

  function NamedBy(r: Row): Identity {
    Identity(Column(r, "id"), Column(r, "question"), Column(r, "class"))
  }

  // ----- Merging the samples -----

  /** A merged finding and how many samples made it. */
  datatype Merged = Merged(finding: Finding, samples: nat)

  function Flat(samples: seq<seq<Finding>>): seq<Finding> {
    if samples == [] then [] else Flat(samples[..|samples| - 1]) + samples[|samples| - 1]
  }

  predicate Makes(findings: seq<Finding>, i: Identity) {
    exists f <- findings :: IdentityOf(f) == i
  }

  /** Each finding the first time its identity is seen. */
  function FirstSeen(all: seq<Finding>): seq<Finding> {
    if all == [] then []
    else
      var before, f := FirstSeen(all[..|all| - 1]), all[|all| - 1];
      if Makes(before, IdentityOf(f)) then before else before + [f]
  }

  function Makers(samples: seq<seq<Finding>>, i: Identity): set<nat> {
    set k: nat | k < |samples| && Makes(samples[k], i)
  }

  function MergedAs(f: Finding, samples: seq<seq<Finding>>): Merged {
    var n := |Makers(samples, IdentityOf(f))|;
    Merged(f.(low := |samples| > 1 && n < |samples|), n)
  }

  lemma {:induction false} FirstSeenMeans(all: seq<Finding>)
    ensures Distinct(Map(IdentityOf, FirstSeen(all)))
    ensures forall i :: Makes(FirstSeen(all), i) <==> Makes(all, i)
    ensures forall f <- FirstSeen(all) :: f in all
  {
    if all != [] {
      var before, f := all[..|all| - 1], all[|all| - 1];
      FirstSeenMeans(before);
      assert all == before + [f];
      MakesMore(before, f);
      MakesMore(FirstSeen(before), f);
    }
  }

  lemma MakesMore(all: seq<Finding>, f: Finding)
    ensures forall i :: Makes(all + [f], i) <==> Makes(all, i) || IdentityOf(f) == i
  {
    forall i
      ensures Makes(all + [f], i) <==> Makes(all, i) || IdentityOf(f) == i
    {
      assert (all + [f])[|all|] == f;
    }
  }

  /** The makers so far: every finished sample, and the part of the next one that was read. */
  ghost predicate SeenSoFar(seen: map<Identity, set<nat>>, samples: seq<seq<Finding>>, i: nat, j: nat)
    requires i < |samples| && j <= |samples[i]|
  {
    forall k :: (if k in seen then seen[k] else {})
      == Makers(samples[..i], k) + if Makes(samples[i][..j], k) then {i} else {}
  }

  method MergeOne(f: Finding, merged: seq<Finding>, seen: map<Identity, set<nat>>, i: nat, ghost all: seq<Finding>)
    returns (m: seq<Finding>, s: map<Identity, set<nat>>)
    requires merged == FirstSeen(all)
    ensures m == FirstSeen(all + [f])
    ensures s == seen[IdentityOf(f) := (if IdentityOf(f) in seen then seen[IdentityOf(f)] else {}) + {i}]
  {
    var k := IdentityOf(f);
    assert (all + [f])[..|all|] == all;
    m := if Makes(merged, k) then merged else merged + [f];
    s := seen[k := (if k in seen then seen[k] else {}) + {i}];
  }

  lemma SeenStep(seen: map<Identity, set<nat>>, samples: seq<seq<Finding>>, i: nat, j: nat)
    requires i < |samples| && j < |samples[i]| && SeenSoFar(seen, samples, i, j)
    ensures
      var k := IdentityOf(samples[i][j]);
      SeenSoFar(seen[k := (if k in seen then seen[k] else {}) + {i}], samples, i, j + 1)
  {
    assert samples[i][..j + 1] == samples[i][..j] + [samples[i][j]];
    MakesMore(samples[i][..j], samples[i][j]);
  }

  lemma SeenNext(seen: map<Identity, set<nat>>, samples: seq<seq<Finding>>, i: nat)
    requires i < |samples| && SeenSoFar(seen, samples, i, |samples[i]|)
    ensures Counts(seen, samples[..i + 1])
  {
    assert samples[i][..|samples[i]|] == samples[i];
    forall k
      ensures Makers(samples[..i + 1], k) == Makers(samples[..i], k) + if Makes(samples[i], k) then {i} else {}
    {
      assert forall x: nat | x < i :: samples[..i + 1][x] == samples[..i][x];
    }
  }

  ghost predicate Counts(seen: map<Identity, set<nat>>, samples: seq<seq<Finding>>) {
    forall k :: (if k in seen then seen[k] else {}) == Makers(samples, k)
  }

  method Gather(samples: seq<seq<Finding>>) returns (merged: seq<Finding>, seen: map<Identity, set<nat>>)
    ensures merged == FirstSeen(Flat(samples)) && Counts(seen, samples)
  {
    merged, seen := [], map[];
    for i := 0 to |samples|
      invariant merged == FirstSeen(Flat(samples[..i])) && Counts(seen, samples[..i])
    {
      ghost var before := Flat(samples[..i]);
      assert samples[i][..0] == [] && before + [] == before;
      for j := 0 to |samples[i]|
        invariant merged == FirstSeen(before + samples[i][..j]) && SeenSoFar(seen, samples, i, j)
      {
        SeenStep(seen, samples, i, j);
        OneFurther(before, samples[i], j);
        merged, seen := MergeOne(samples[i][j], merged, seen, i, before + samples[i][..j]);
      }
      SeenNext(seen, samples, i);
      FlatNext(samples, i);
    }
    assert samples[..|samples|] == samples;
  }

  lemma OneFurther(before: seq<Finding>, s: seq<Finding>, j: nat)
    requires j < |s|
    ensures before + s[..j + 1] == before + s[..j] + [s[j]]
  {
  }

  lemma FlatNext(samples: seq<seq<Finding>>, i: nat)
    requires i < |samples|
    ensures Flat(samples[..i + 1]) == Flat(samples[..i]) + samples[i][..|samples[i]|]
  {
    assert samples[..i + 1][..i] == samples[..i] && samples[i][..|samples[i]|] == samples[i];
  }

  /** The findings of every sample, once each, in first-seen order, each with how many samples made
      it and whether all did. */
  method Union(samples: seq<seq<Finding>>) returns (out: seq<Merged>)
    ensures out == Map(f => MergedAs(f, samples), FirstSeen(Flat(samples)))
  {
    var merged, seen := Gather(samples);
    out := [];
    for i := 0 to |merged|
      invariant |out| == i && forall k | 0 <= k < i :: out[k] == MergedAs(merged[k], samples)
    {
      var f := merged[i];
      var n := if IdentityOf(f) in seen then |seen[IdentityOf(f)]| else 0;
      assert n == |Makers(samples, IdentityOf(f))|;
      out := out + [Merged(f.(low := |samples| > 1 && n < |samples|), n)];
    }
  }

  function Upto(n: nat): (r: set<nat>)
    ensures |r| == n && forall k: nat :: k in r <==> k < n
  {
    if n == 0 then {} else Upto(n - 1) + {n - 1}
  }

  /** A merged finding is of low confidence exactly when there was more than one sample and some
      sample did not make it. */
  lemma LowMeansNotAll(f: Finding, samples: seq<seq<Finding>>)
    requires f in Flat(samples)
    ensures MergedAs(f, samples).finding.low
      <==> |samples| > 1 && exists k: nat | k < |samples| :: !Makes(samples[k], IdentityOf(f))
  {
    var all, made := Upto(|samples|), Makers(samples, IdentityOf(f));
    SubsetSize(made, all);
    if made == all {
      forall k: nat | k < |samples|
        ensures Makes(samples[k], IdentityOf(f))
      {
        assert k in all;
      }
    } else {
      var k :| k in all && k !in made;
      SubsetSize(made, all - {k});
    }
  }

  // ----- The gate -----

  const SEVERITIES: set<string> := {"HIGH", "MED", "LOW"}

  const DISPOSITIONS: set<string> := {"FIX", "ALLOW", "REJECT", "CHARTER", "REVERTED", "POLICY"}

  datatype Fault = BadSeverity | Untriaged | MarkedFix | UnknownDisposition | NoReason | CharterFix

  datatype Problem =
    | NotOurs(i: Identity)
    | WrongSeverity(i: Identity)
    | NoRow(i: Identity)
    | ManyRows(i: Identity)
    | OfRow(row: Row, fault: Fault)

  predicate Holds(text: string, part: string) {
    exists k | 0 <= k <= |text| :: part <= text[k..]
  }

  /** A text holds a part exactly when it is something, the part, and something. */
  lemma HoldsMeans(text: string, part: string)
    ensures Holds(text, part) <==> exists before, after :: text == before + part + after
  {
    if Holds(text, part) {
      var k :| 0 <= k <= |text| && part <= text[k..];
      assert text == text[..k] + part + text[k + |part|..];
    }
    if before, after :| text == before + part + after {
      assert text[|before|..] == part + after && part <= text[|before|..];
    }
  }

  /** Whether it does, looking from each position in turn. */
  method Contains(text: string, part: string) returns (found: bool)
    ensures found <==> Holds(text, part)
  {
    for k := 0 to |text| + 1
      invariant forall i | 0 <= i < k :: !(part <= text[i..])
    {
      if part <= text[k..] { return true; }
    }
    return false;
  }

  predicate Grave(severity: string) {
    severity == "HIGH" || severity == "MED"
  }

  function Disposition(r: Row): string {
    Upper(Column(r, "disposition"))
  }

  predicate HasFault(r: Row, fault: Fault) {
    var severity, disposition := Column(r, "severity"), Disposition(r);
    match fault
    case BadSeverity => severity !in SEVERITIES
    case Untriaged => Grave(severity) && disposition == ""
    case MarkedFix => Grave(severity) && disposition == "FIX"
    case UnknownDisposition => disposition != "" && disposition !in DISPOSITIONS
    case NoReason => disposition in DISPOSITIONS - {"FIX"} && Column(r, "reason") == ""
    case CharterFix => disposition == "FIX" && Holds(Column(r, "path"), "/charter/")
  }

  /** The finding a dict keyed by identity keeps: the last of its identity. */
  function Wanted(expected: seq<Finding>, i: Identity): Option<Finding> {
    if expected == [] then None
    else
      var f := expected[|expected| - 1];
      if IdentityOf(f) == i then Some(f) else Wanted(expected[..|expected| - 1], i)
  }

  function RowsFor(rows: seq<Row>, i: Identity): nat {
    if rows == [] then 0
    else RowsFor(rows[..|rows| - 1], i) + if NamedBy(rows[|rows| - 1]) == i then 1 else 0
  }

  predicate SeverityDiffers(r: Row, f: Finding) {
    "severity" !in r || r["severity"] != f.severity
  }

  /** Every problem there is with a file's rows, and nothing else. */
  predicate Raised(p: Problem, rows: seq<Row>, expected: seq<Finding>) {
    match p
    case NotOurs(i) => RowsFor(rows, i) > 0 && Wanted(expected, i).None?
    case WrongSeverity(i) =>
      Wanted(expected, i).Some? && exists r <- rows :: NamedBy(r) == i && SeverityDiffers(r, Wanted(expected, i).value)
    case NoRow(i) => Wanted(expected, i).Some? && RowsFor(rows, i) == 0
    case ManyRows(i) => RowsFor(rows, i) > 1
    case OfRow(r, fault) => r in rows && HasFault(r, fault)
  }

  /** The faults found so far are those looked for that the row has. */
  ghost predicate Found(problems: seq<Problem>, row: Row, looked: set<Fault>) {
    forall p :: p in problems <==> p.OfRow? && p.row == row && p.fault in looked && HasFault(row, p.fault)
  }

  method Look(problems: seq<Problem>, row: Row, fault: Fault, found: bool, ghost looked: set<Fault>)
    returns (more: seq<Problem>)
    requires Found(problems, row, looked) && found == HasFault(row, fault)
    ensures Found(more, row, looked + {fault})
  {
    more := if found then problems + [OfRow(row, fault)] else problems;
  }

  /** One row's problems, in the order they are looked for. */
  method RowFaults(row: Row) returns (problems: seq<Problem>)
    ensures forall p :: p in problems <==> p.OfRow? && p.row == row && HasFault(row, p.fault)
  {
    var severity, disposition := Column(row, "severity"), Upper(Column(row, "disposition"));
    var grave := severity in {"HIGH", "MED"};
    var known := disposition in DISPOSITIONS;
    var ours := Contains(Column(row, "path"), "/charter/");
    problems := Look([], row, BadSeverity, severity !in SEVERITIES, {});
    problems := Look(problems, row, Untriaged, grave && disposition == "", {BadSeverity});
    problems := Look(problems, row, MarkedFix, grave && disposition == "FIX", {BadSeverity, Untriaged});
    problems := Look(problems, row, UnknownDisposition, disposition != "" && !known,
                     {BadSeverity, Untriaged, MarkedFix});
    problems := Look(problems, row, NoReason, known && disposition != "FIX" && Column(row, "reason") == "",
                     {BadSeverity, Untriaged, MarkedFix, UnknownDisposition});
    problems := Look(problems, row, CharterFix, disposition == "FIX" && ours,
                     {BadSeverity, Untriaged, MarkedFix, UnknownDisposition, NoReason});
  }

  method RowProblems(rows: seq<Row>) returns (problems: seq<Problem>)
    ensures forall p :: p in problems <==> p.OfRow? && p.row in rows && HasFault(p.row, p.fault)
  {
    problems := [];
    for i := 0 to |rows|
      invariant forall p :: p in problems <==> p.OfRow? && p.row in rows[..i] && HasFault(p.row, p.fault)
    {
      var more := RowFaults(rows[i]);
      MoreProblems(rows, i, problems, more);
      problems := problems + more;
    }
    assert rows[..|rows|] == rows;
  }

  lemma MoreProblems(rows: seq<Row>, i: nat, problems: seq<Problem>, more: seq<Problem>)
    requires i < |rows|
    requires forall p :: p in problems <==> p.OfRow? && p.row in rows[..i] && HasFault(p.row, p.fault)
    requires forall p :: p in more <==> p.OfRow? && p.row == rows[i] && HasFault(rows[i], p.fault)
    ensures forall p :: p in problems + more <==> p.OfRow? && p.row in rows[..i + 1] && HasFault(p.row, p.fault)
  {
    assert rows[..i + 1] == rows[..i] + [rows[i]];
  }

  /** The findings expected, keyed by identity. */
  method Index(expected: seq<Finding>) returns (want: map<Identity, Finding>)
    ensures forall i :: Wanted(expected, i) == if i in want then Some(want[i]) else None
  {
    want := map[];
    for k := 0 to |expected|
      invariant forall i :: Wanted(expected[..k], i) == if i in want then Some(want[i]) else None
    {
      assert expected[..k + 1][..k] == expected[..k];
      want := want[IdentityOf(expected[k]) := expected[k]];
    }
    assert expected[..|expected|] == expected;
  }

  /** What one row says of the finding it names. */
  function Named(r: Row, want: map<Identity, Finding>): seq<Problem> {
    var i := NamedBy(r);
    if i !in want then [NotOurs(i)]
    else if SeverityDiffers(r, want[i]) then [WrongSeverity(i)]
    else []
  }

  method CountRows(rows: seq<Row>, want: map<Identity, Finding>)
    returns (problems: seq<Problem>, seen: map<Identity, nat>)
    ensures forall i :: (if i in seen then seen[i] else 0) == RowsFor(rows, i)
    ensures forall i <- seen :: seen[i] > 0
    ensures forall p :: p in problems <==> exists r <- rows :: p in Named(r, want)
  {
    problems, seen := [], map[];
    for k := 0 to |rows|
      invariant forall i :: (if i in seen then seen[i] else 0) == RowsFor(rows[..k], i)
      invariant forall i <- seen :: seen[i] > 0
      invariant forall p :: p in problems <==> exists r <- rows[..k] :: p in Named(r, want)
    {
      assert rows[..k + 1] == rows[..k] + [rows[k]] && rows[..k + 1][..k] == rows[..k];
      var i := NamedBy(rows[k]);
      seen := seen[i := if i in seen then seen[i] + 1 else 1];
      problems := problems + Named(rows[k], want);
    }
    assert rows[..|rows|] == rows;
  }

  method Missing(expected: seq<Finding>, seen: map<Identity, nat>) returns (problems: seq<Problem>)
    ensures forall p :: p in problems <==> p.NoRow? && Wanted(expected, p.i).Some? && p.i !in seen
  {
    problems := [];
    for k := 0 to |expected|
      invariant forall p :: p in problems <==> p.NoRow? && Wanted(expected[..k], p.i).Some? && p.i !in seen
    {
      assert expected[..k + 1][..k] == expected[..k];
      var i := IdentityOf(expected[k]);
      if i !in seen { problems := problems + [NoRow(i)]; }
    }
    assert expected[..|expected|] == expected;
  }

  method Repeated(rows: seq<Row>, seen: map<Identity, nat>) returns (problems: seq<Problem>)
    requires forall i :: (if i in seen then seen[i] else 0) == RowsFor(rows, i)
    ensures forall p :: p in problems <==> p.ManyRows? && RowsFor(rows, p.i) > 1
  {
    var left := seen.Keys;
    problems := [];
    while left != {}
      invariant left <= seen.Keys
      invariant forall p :: p in problems <==> p.ManyRows? && p.i in seen.Keys - left && seen[p.i] > 1
    {
      var i :| i in left;
      if seen[i] > 1 { problems := problems + [ManyRows(i)]; }
      left := left - {i};
    }
  }

  /** Why a file's rows do not pass: each problem there is, and only those. */
  method ReleaseGate(text: string, expected: seq<Finding>) returns (problems: seq<Problem>)
    ensures forall p :: p in problems <==> Raised(p, RowsOf(Lines(text), None), expected)
  {
    var rows := TableRows(text);
    var want := Index(expected);
    var named, seen := CountRows(rows, want);
    var missing := Missing(expected, seen);
    var repeated := Repeated(rows, seen);
    var faults := RowProblems(rows);
    forall p
      ensures p in named <==> (p.NotOurs? || p.WrongSeverity?) && Raised(p, rows, expected)
    {
      NamedIsRaised(rows, expected, want, p);
    }
    problems := named + missing + repeated + faults;
  }

  lemma {:induction false} RowsForMeans(rows: seq<Row>, i: Identity)
    ensures RowsFor(rows, i) > 0 <==> exists r <- rows :: NamedBy(r) == i
  {
    if rows != [] {
      var n := |rows| - 1;
      assert rows == rows[..n] + [rows[n]];
      RowsForMeans(rows[..n], i);
    }
  }

  lemma NamedIsRaised(rows: seq<Row>, expected: seq<Finding>, want: map<Identity, Finding>, p: Problem)
    requires forall i :: Wanted(expected, i) == if i in want then Some(want[i]) else None
    ensures (exists r <- rows :: p in Named(r, want))
       <==> (p.NotOurs? || p.WrongSeverity?) && Raised(p, rows, expected)
  {
    if p.NotOurs? {
      RowsForMeans(rows, p.i);
      if Raised(p, rows, expected) {
        var r :| r in rows && NamedBy(r) == p.i;
        assert p in Named(r, want);
      }
    } else if p.WrongSeverity? && Raised(p, rows, expected) {
      var r :| r in rows && NamedBy(r) == p.i && SeverityDiffers(r, Wanted(expected, p.i).value);
      assert p in Named(r, want);
    }
  }

  // ----- What an empty answer means -----

  /** What resolves a finding without a fix. */
  const RELEASING: set<string> := {"ALLOW", "CHARTER", "POLICY", "REJECT", "REVERTED"}

  /** A row that may be released: its severity is known; a grave one carries a disposition other than
      FIX with its reason; FIX is never a charter finding's. */
  predicate Releasable(r: Row) {
    var severity, disposition := Column(r, "severity"), Disposition(r);
    && (severity == "HIGH" || severity == "MED" || severity == "LOW")
    && (severity == "HIGH" || severity == "MED" ==> disposition in RELEASING)
    && (disposition == "" || disposition == "FIX" || disposition in RELEASING)
    && (disposition != "" && disposition != "FIX" ==> Column(r, "reason") != "")
    && (disposition == "FIX" ==> !Holds(Column(r, "path"), "/charter/"))
  }

  ghost predicate OnePerFinding(rows: seq<Row>, expected: seq<Finding>) {
    && Distinct(Map(NamedBy, rows))
    && Elements(Map(NamedBy, rows)) == Elements(Map(IdentityOf, expected))
    && |rows| == |expected|
  }

  ghost predicate SameSeverity(rows: seq<Row>, expected: seq<Finding>) {
    forall r <- rows, f <- expected | NamedBy(r) == IdentityOf(f) :: "severity" in r && r["severity"] == f.severity
  }

  lemma {:induction false} WantedMeans(expected: seq<Finding>, i: Identity)
    ensures Wanted(expected, i).Some? <==> i in Elements(Map(IdentityOf, expected))
    ensures Wanted(expected, i).Some? ==>
      Wanted(expected, i).value in expected && IdentityOf(Wanted(expected, i).value) == i
  {
    if expected != [] {
      var n := |expected| - 1;
      WantedMeans(expected[..n], i);
      assert expected == expected[..n] + [expected[n]];
      assert Map(IdentityOf, expected) == Map(IdentityOf, expected[..n]) + [IdentityOf(expected[n])];
    }
  }

  lemma WantedIsIt(expected: seq<Finding>, f: Finding)
    requires Distinct(Map(IdentityOf, expected)) && f in expected
    ensures Wanted(expected, IdentityOf(f)) == Some(f)
  {
    WantedMeans(expected, IdentityOf(f));
    var j :| 0 <= j < |expected| && expected[j] == f;
    assert Map(IdentityOf, expected)[j] == IdentityOf(f);
    var g := Wanted(expected, IdentityOf(f)).value;
    var k :| 0 <= k < |expected| && expected[k] == g;
    assert Map(IdentityOf, expected)[k] == IdentityOf(f);
  }

  lemma {:induction false} DistinctIsOnce(rows: seq<Row>, i: Identity)
    requires Distinct(Map(NamedBy, rows))
    ensures RowsFor(rows, i) <= 1
  {
    if rows != [] {
      var n := |rows| - 1;
      var names := Map(NamedBy, rows);
      assert Map(NamedBy, rows[..n]) == names[..n];
      DistinctIsOnce(rows[..n], i);
      RowsForMeans(rows[..n], i);
      forall k | 0 <= k < n
        ensures NamedBy(rows[k]) != NamedBy(rows[n])
      {
        assert names[k] != names[n];
      }
    }
  }

  lemma {:induction false} RepeatIsCounted(rows: seq<Row>, j: nat, k: nat)
    requires j < k < |rows| && NamedBy(rows[j]) == NamedBy(rows[k])
    ensures RowsFor(rows, NamedBy(rows[j])) > 1
  {
    var n := |rows| - 1;
    if k == n {
      RowsForMeans(rows[..n], NamedBy(rows[j]));
      assert rows[j] in rows[..n];
    } else {
      RepeatIsCounted(rows[..n], j, k);
    }
  }

  lemma RowsForOnce(rows: seq<Row>)
    ensures (forall i :: RowsFor(rows, i) <= 1) <==> Distinct(Map(NamedBy, rows))
  {
    if Distinct(Map(NamedBy, rows)) {
      forall i
        ensures RowsFor(rows, i) <= 1
      {
        DistinctIsOnce(rows, i);
      }
    } else {
      var j, k :| 0 <= j < k < |rows| && Map(NamedBy, rows)[j] == Map(NamedBy, rows)[k];
      RepeatIsCounted(rows, j, k);
    }
  }

  /** A row has none of the faults exactly when it may be released. */
  lemma NoFaultIsReleasable(r: Row)
    ensures (forall fault :: !HasFault(r, fault)) <==> Releasable(r)
  {
    if forall fault :: !HasFault(r, fault) {
      assert !HasFault(r, BadSeverity) && !HasFault(r, Untriaged) && !HasFault(r, MarkedFix);
      assert !HasFault(r, UnknownDisposition) && !HasFault(r, NoReason) && !HasFault(r, CharterFix);
    }
  }

  ghost predicate Passes(rows: seq<Row>, expected: seq<Finding>) {
    forall p :: !Raised(p, rows, expected)
  }

  lemma NamesMatch(rows: seq<Row>, expected: seq<Finding>)
    ensures (forall i :: !Raised(NotOurs(i), rows, expected) && !Raised(NoRow(i), rows, expected))
       <==> Elements(Map(NamedBy, rows)) == Elements(Map(IdentityOf, expected))
  {
    forall i
      ensures RowsFor(rows, i) > 0 <==> i in Elements(Map(NamedBy, rows))
      ensures Wanted(expected, i).Some? <==> i in Elements(Map(IdentityOf, expected))
    {
      RowsForMeans(rows, i);
      WantedMeans(expected, i);
    }
    if forall i :: !Raised(NotOurs(i), rows, expected) && !Raised(NoRow(i), rows, expected) {
      forall i
        ensures i in Elements(Map(NamedBy, rows)) <==> i in Elements(Map(IdentityOf, expected))
      {
        assert !Raised(NotOurs(i), rows, expected) && !Raised(NoRow(i), rows, expected);
      }
    }
  }

  lemma SeveritiesMatch(rows: seq<Row>, expected: seq<Finding>)
    requires Distinct(Map(IdentityOf, expected))
    ensures (forall i :: !Raised(WrongSeverity(i), rows, expected)) <==> SameSeverity(rows, expected)
  {
    if forall i :: !Raised(WrongSeverity(i), rows, expected) {
      forall r, f | r in rows && f in expected && NamedBy(r) == IdentityOf(f)
        ensures !SeverityDiffers(r, f)
      {
        WantedIsIt(expected, f);
        assert !Raised(WrongSeverity(IdentityOf(f)), rows, expected);
      }
    }
    if SameSeverity(rows, expected) {
      forall i
        ensures !Raised(WrongSeverity(i), rows, expected)
      {
        WantedMeans(expected, i);
      }
    }
  }

  lemma NoProblemOf(p: Problem, rows: seq<Row>, expected: seq<Finding>)
    requires Distinct(Map(IdentityOf, expected))
    requires OnePerFinding(rows, expected) && SameSeverity(rows, expected) && forall r <- rows :: Releasable(r)
    ensures !Raised(p, rows, expected)
  {
    match p
    case NotOurs(i) =>
      NamesMatch(rows, expected);
      assert !Raised(NotOurs(i), rows, expected) && !Raised(NoRow(i), rows, expected);
    case NoRow(i) =>
      NamesMatch(rows, expected);
      assert !Raised(NotOurs(i), rows, expected) && !Raised(NoRow(i), rows, expected);
    case WrongSeverity(i) =>
      SeveritiesMatch(rows, expected);
      assert !Raised(WrongSeverity(i), rows, expected);
    case ManyRows(i) =>
      RowsForOnce(rows);
      assert RowsFor(rows, i) <= 1;
    case OfRow(r, fault) =>
      NoFaultIsReleasable(r);
  }

  /** The gate finds nothing exactly when rows and findings are in bijection, each row carries its
      finding's severity, and every row may be released. */
  lemma PassesExactly(rows: seq<Row>, expected: seq<Finding>)
    requires Distinct(Map(IdentityOf, expected))
    ensures Passes(rows, expected)
       <==> OnePerFinding(rows, expected) && SameSeverity(rows, expected) && forall r <- rows :: Releasable(r)
  {
    if Passes(rows, expected) {
      NamesMatch(rows, expected);
      SeveritiesMatch(rows, expected);
      RowsForOnce(rows);
      forall i
        ensures RowsFor(rows, i) <= 1 && !Raised(WrongSeverity(i), rows, expected)
        ensures !Raised(NotOurs(i), rows, expected) && !Raised(NoRow(i), rows, expected)
      {
        assert !Raised(ManyRows(i), rows, expected);
      }
      Counted(rows, expected);
      forall r | r in rows
        ensures Releasable(r)
      {
        forall fault
          ensures !HasFault(r, fault)
        {
          assert !Raised(OfRow(r, fault), rows, expected);
        }
        NoFaultIsReleasable(r);
      }
    } else if OnePerFinding(rows, expected) && SameSeverity(rows, expected) && forall r <- rows :: Releasable(r) {
      forall p
        ensures !Raised(p, rows, expected)
      {
        NoProblemOf(p, rows, expected);
      }
    }
  }

  lemma Counted(rows: seq<Row>, expected: seq<Finding>)
    requires Distinct(Map(NamedBy, rows)) && Distinct(Map(IdentityOf, expected))
    requires Elements(Map(NamedBy, rows)) == Elements(Map(IdentityOf, expected))
    ensures |rows| == |expected|
  {
    DistinctCount(Map(NamedBy, rows));
    DistinctCount(Map(IdentityOf, expected));
  }

  // ----- The printed file, untouched -----

  /** A finding whose columns survive the trimming of cells, with a known severity. */
  predicate Tidy(f: Finding) {
    && Strip(f.id) == f.id && Strip(f.question) == f.question && Strip(f.class_) == f.class_
    && f.severity in SEVERITIES && Strip(f.severity) == f.severity
  }

  lemma ReadNames(f: Finding)
    requires Tidy(f)
    ensures NamedBy(Read(f)) == IdentityOf(f) && !SeverityDiffers(Read(f), f)
    ensures Column(Read(f), "severity") == f.severity && Disposition(Read(f)) == ""
  {
    ReadColumns(f, 0);
    ReadColumns(f, 2);
    ReadColumns(f, 3);
    ReadColumns(f, 4);
    ReadColumns(f, 7);
    assert Values(f)[7] == "" && Strip("") == "" && Upper("") == "";
  }

  /** Rows that name their findings, carry their severities and have no disposition yet. */
  ghost predicate Untouched(rows: seq<Finding>, read: Finding -> Row) {
    && (forall f <- rows :: NamedBy(read(f)) == IdentityOf(f) && !SeverityDiffers(read(f), f))
    && (forall f <- rows :: Column(read(f), "severity") == f.severity && Disposition(read(f)) == "")
    && (forall f <- rows :: f.severity in SEVERITIES)
  }

  lemma BlankRowFaults(rows: seq<Finding>, read: Finding -> Row, p: Problem)
    requires Distinct(Map(IdentityOf, rows)) && Untouched(rows, read)
    ensures Raised(p, Map(read, rows), rows)
       <==> && p.OfRow? && p.fault == Untriaged
            && exists f <- rows :: (f.severity == "HIGH" || f.severity == "MED") && p.row == read(f)
  {
    var file := Map(read, rows);
    match p
    case NotOurs(i) => NoneUnnamed(file, rows, i);
    case NoRow(i) => NoneUnnamed(file, rows, i);
    case WrongSeverity(i) => NoneMisgraded(file, rows, i);
    case ManyRows(i) => NoneDoubled(file, rows, i);
    case OfRow(r, fault) => BlankRowFaultsOf(rows, read, r, fault);
  }

  lemma NoneUnnamed(rows: seq<Row>, expected: seq<Finding>, i: Identity)
    requires Elements(Map(NamedBy, rows)) == Elements(Map(IdentityOf, expected))
    ensures !Raised(NotOurs(i), rows, expected) && !Raised(NoRow(i), rows, expected)
  {
    NamesMatch(rows, expected);
  }

  lemma NoneMisgraded(rows: seq<Row>, expected: seq<Finding>, i: Identity)
    requires Distinct(Map(IdentityOf, expected)) && SameSeverity(rows, expected)
    ensures !Raised(WrongSeverity(i), rows, expected)
  {
    SeveritiesMatch(rows, expected);
  }

  lemma NoneDoubled(rows: seq<Row>, expected: seq<Finding>, i: Identity)
    requires Distinct(Map(NamedBy, rows))
    ensures !Raised(ManyRows(i), rows, expected)
  {
    RowsForOnce(rows);
    assert RowsFor(rows, i) <= 1;
  }

  lemma BlankRowFaultsOf(rows: seq<Finding>, read: Finding -> Row, r: Row, fault: Fault)
    requires Untouched(rows, read)
    ensures r in Map(read, rows) && HasFault(r, fault)
       <==> fault == Untriaged && exists f <- rows :: (f.severity == "HIGH" || f.severity == "MED") && r == read(f)
  {
    var file := Map(read, rows);
    forall i | 0 <= i < |rows| ensures file[i] == read(rows[i]) && rows[i] in rows && read(rows[i]) in file {}
  }

  /** The file as printed is read as exactly the findings, and what stops the release is each grave
      one, untriaged, and nothing else. */
  lemma UntouchedFileIsUntriaged(preamble: seq<string>, rows: seq<Finding>, p: Problem)
    requires forall l <- preamble :: OneLine(l) && !Piped(l)
    requires forall f <- rows :: Printable(f) && Tidy(f)
    requires Distinct(Map(IdentityOf, rows))
    ensures Raised(p, RowsOf(Lines(Skeleton(preamble, rows)), None), rows)
       <==> && p.OfRow? && p.fault == Untriaged
            && exists f <- rows :: (f.severity == "HIGH" || f.severity == "MED") && p.row == Read(f)
  {
    SkeletonReadsBack(preamble, rows);
    forall f | f in rows
      ensures NamedBy(Read(f)) == IdentityOf(f) && !SeverityDiffers(Read(f), f)
      ensures Column(Read(f), "severity") == f.severity && Disposition(Read(f)) == ""
    {
      ReadNames(f);
    }
    BlankRowFaults(rows, Read, p);
  }
}
