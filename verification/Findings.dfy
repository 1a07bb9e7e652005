/** schema.go and map.go: from what the model reported to the review request. Every reported finding
    is dropped and counted, or ends in exactly one place of the request, in order. `tidy` is
    strings.ToLower after strings.TrimSpace, `lower` strings.ToLower, `fingerprint` the hash and
    `ids` the generator of finding ids. A confidence is a real number. */
module Findings {
  import opened Selection

  datatype Finding = Finding(
    severity: string,
    category: string,
    path: string,
    startLine: int,
    endLine: int,
    title: string,
    body: string,
    confidence: real)

  datatype Dropped = Dropped(lowConfidence: nat, badPath: nat, invalid: nat)

  datatype Verdict = BadPath | LowConfidence | Invalid | Valid(finding: Finding)

  const SEVERITIES := ["error", "warning", "info"]
  const CATEGORIES := ["bug", "security", "performance", "style", "test", "docs", "other"]

  /** The order of the checks: path, confidence, lines. Negative lines are cleared before the range
      is looked at. */
  function Judge(f: Finding, known: set<string>, minConfidence: real, tidy: string -> string): Verdict {
    if f.path == "" || f.path !in known then BadPath
    else if f.confidence < minConfidence then LowConfidence
    else
      var (a, b) := if f.startLine < 0 || f.endLine < 0 then (0, 0) else (f.startLine, f.endLine);
      if 0 < b < a then Invalid
      else
        Valid(f.(
              startLine := a,
              endLine := b,
              severity := if tidy(f.severity) in SEVERITIES then tidy(f.severity) else "warning",
              category := if tidy(f.category) in CATEGORIES then tidy(f.category) else "other"))
  }

  /** The findings that stay, in order. */
  function Survivors(raw: seq<Finding>, known: set<string>, minConfidence: real, tidy: string -> string): seq<Finding> {
    if |raw| == 0 then []
    else
      var n := |raw| - 1;
      var v := Judge(raw[n], known, minConfidence, tidy);
      Survivors(raw[..n], known, minConfidence, tidy) + (if v.Valid? then [v.finding] else [])
  }

  /** How many are judged in this way. */
  function Count(raw: seq<Finding>, v: Verdict, known: set<string>, minConfidence: real, tidy: string -> string): nat {
    if |raw| == 0 then 0
    else
      var n := |raw| - 1;
      Count(raw[..n], v, known, minConfidence, tidy) + (if Judge(raw[n], known, minConfidence, tidy) == v then 1 else 0)
  }

  /** What every surviving finding looks like. */
  predicate WellFormed(f: Finding, known: set<string>, minConfidence: real) {
    && f.path != "" && f.path in known
    && f.confidence >= minConfidence
    && f.startLine >= 0 && f.endLine >= 0
    && (f.endLine > 0 ==> f.startLine <= f.endLine)
    && f.severity in SEVERITIES
    && f.category in CATEGORIES
  }

  lemma {:induction false} SurvivorsWellFormed(raw: seq<Finding>, known: set<string>, minConfidence: real, tidy: string -> string)
    ensures forall f <- Survivors(raw, known, minConfidence, tidy) :: WellFormed(f, known, minConfidence)
  {
    if raw != [] {
      SurvivorsWellFormed(raw[..|raw| - 1], known, minConfidence, tidy);
    }
  }

  // What happens to a reported finding, said of the report itself

  predicate PathKnown(f: Finding, known: set<string>) {
    f.path != "" && f.path in known
  }

  /** Both lines are given, and in the wrong order. */
  predicate LinesReversed(f: Finding) {
    f.startLine > 0 && f.endLine > 0 && f.endLine < f.startLine
  }

  predicate Stays(f: Finding, known: set<string>, minConfidence: real) {
    PathKnown(f, known) && f.confidence >= minConfidence && !LinesReversed(f)
  }

  /** The finding f is kept as g: text, path and confidence as they were; both lines, or none if one was
      negative; severity and category as the tidied ones if they are listed. */
  ghost predicate KeptAs(f: Finding, g: Finding, tidy: string -> string) {
    && g.title == f.title && g.body == f.body && g.path == f.path && g.confidence == f.confidence
    && (if f.startLine >= 0 && f.endLine >= 0
        then g.startLine == f.startLine && g.endLine == f.endLine
        else g.startLine == 0 && g.endLine == 0)
    && var severity, category := tidy(f.severity), tidy(f.category);
    && (if severity == "error" || severity == "warning" || severity == "info"
        then g.severity == severity
        else g.severity == "warning")
    && (if category == "bug" || category == "security" || category == "performance" || category == "style" ||
           category == "test" || category == "docs" || category == "other"
        then g.category == category
        else g.category == "other")
  }

  /** `kept` is what becomes of the findings that stay, in the order of the report. */
  ghost predicate Traces(raw: seq<Finding>, kept: seq<Finding>, idx: seq<nat>, wanted: nat -> bool, tidy: string -> string) {
    && Lists(idx, |raw|, wanted)
    && |kept| == |idx|
    && forall k | 0 <= k < |kept| :: idx[k] < |raw| && KeptAs(raw[idx[k]], kept[k], tidy)
  }

  ghost function Staying(raw: seq<Finding>, known: set<string>, minConfidence: real): nat -> bool {
    (i: nat) => i < |raw| && Stays(raw[i], known, minConfidence)
  }

  ghost function BadPaths(raw: seq<Finding>, known: set<string>): nat -> bool {
    (i: nat) => i < |raw| && !PathKnown(raw[i], known)
  }

  ghost function LowConfidences(raw: seq<Finding>, known: set<string>, minConfidence: real): nat -> bool {
    (i: nat) => i < |raw| && PathKnown(raw[i], known) && raw[i].confidence < minConfidence
  }

  ghost function Reversals(raw: seq<Finding>, known: set<string>, minConfidence: real): nat -> bool {
    (i: nat) => i < |raw| && PathKnown(raw[i], known) && raw[i].confidence >= minConfidence && LinesReversed(raw[i])
  }

  lemma JudgedExactly(f: Finding, known: set<string>, minConfidence: real, tidy: string -> string)
    ensures var v := Judge(f, known, minConfidence, tidy);
            && (v.Valid? <==> Stays(f, known, minConfidence))
            && (v.Valid? ==> KeptAs(f, v.finding, tidy))
            && (v.BadPath? <==> !PathKnown(f, known))
            && (v.LowConfidence? <==> PathKnown(f, known) && f.confidence < minConfidence)
            && (v.Invalid? <==> PathKnown(f, known) && f.confidence >= minConfidence && LinesReversed(f))
  {
  }

  /** The survivors of the first n findings, as listed by their indices. */
  ghost predicate TracesUpTo(raw: seq<Finding>, n: nat, kept: seq<Finding>, idx: seq<nat>, wanted: nat -> bool, tidy: string -> string) {
    && n <= |raw| && Lists(idx, n, wanted)
    && |kept| == |idx|
    && forall k | 0 <= k < |kept| :: idx[k] < |raw| && KeptAs(raw[idx[k]], kept[k], tidy)
  }

  lemma TracesOneMore(raw: seq<Finding>, n: nat, kept: seq<Finding>, idx: seq<nat>, wanted: nat -> bool, tidy: string -> string, g: Finding)
    requires n < |raw| && TracesUpTo(raw, n, kept, idx, wanted, tidy)
    requires wanted(n) ==> KeptAs(raw[n], g, tidy)
    ensures TracesUpTo(raw, n + 1, kept + (if wanted(n) then [g] else []), idx + (if wanted(n) then [n] else []), wanted, tidy)
  {
    ListsOneMore(idx, n, wanted);
  }

  lemma {:induction false} SurvivorsExactly(raw: seq<Finding>, n: nat, known: set<string>, minConfidence: real, tidy: string -> string)
    returns (idx: seq<nat>)
    requires n <= |raw|
    ensures TracesUpTo(raw, n, Survivors(raw[..n], known, minConfidence, tidy), idx, Staying(raw, known, minConfidence), tidy)
  {
    if n == 0 {
      idx := [];
    } else {
      var m, wanted := n - 1, Staying(raw, known, minConfidence);
      var before := SurvivorsExactly(raw, m, known, minConfidence, tidy);
      JudgedExactly(raw[m], known, minConfidence, tidy);
      assert raw[..n][..m] == raw[..m];
      var v := Judge(raw[m], known, minConfidence, tidy);
      TracesOneMore(raw, m, Survivors(raw[..m], known, minConfidence, tidy), before, wanted, tidy,
                    if v.Valid? then v.finding else raw[m]);
      idx := before + if wanted(m) then [m] else [];
    }
  }

  lemma {:induction false} CountExactly(raw: seq<Finding>, n: nat, v: Verdict, wanted: nat -> bool,
                                       known: set<string>, minConfidence: real, tidy: string -> string)
    requires n <= |raw|
    requires forall i: nat | i < |raw| :: wanted(i) <==> Judge(raw[i], known, minConfidence, tidy) == v
    ensures Count(raw[..n], v, known, minConfidence, tidy) == |Wanted(n, wanted)|
  {
    if n > 0 {
      var m := n - 1;
      CountExactly(raw, m, v, wanted, known, minConfidence, tidy);
      WantedOneMore(m, wanted);
      assert raw[..n][..m] == raw[..m];
    }
  }

  /** Each counter is the number of findings that meet its own condition. */
  lemma CountsExactly(raw: seq<Finding>, known: set<string>, minConfidence: real, tidy: string -> string)
    ensures Count(raw, BadPath, known, minConfidence, tidy) == |Wanted(|raw|, BadPaths(raw, known))|
    ensures Count(raw, LowConfidence, known, minConfidence, tidy) == |Wanted(|raw|, LowConfidences(raw, known, minConfidence))|
    ensures Count(raw, Invalid, known, minConfidence, tidy) == |Wanted(|raw|, Reversals(raw, known, minConfidence))|
  {
    forall i: nat | i < |raw|
      ensures BadPaths(raw, known)(i) <==> Judge(raw[i], known, minConfidence, tidy) == BadPath
      ensures LowConfidences(raw, known, minConfidence)(i) <==> Judge(raw[i], known, minConfidence, tidy) == LowConfidence
      ensures Reversals(raw, known, minConfidence)(i) <==> Judge(raw[i], known, minConfidence, tidy) == Invalid
    {
      JudgedExactly(raw[i], known, minConfidence, tidy);
    }
    assert raw[..|raw|] == raw;
    CountExactly(raw, |raw|, BadPath, BadPaths(raw, known), known, minConfidence, tidy);
    CountExactly(raw, |raw|, LowConfidence, LowConfidences(raw, known, minConfidence), known, minConfidence, tidy);
    CountExactly(raw, |raw|, Invalid, Reversals(raw, known, minConfidence), known, minConfidence, tidy);
  }

  /** The loop of ParseAndValidate, after the JSON has been decoded. */
  method Validate(raw: seq<Finding>, known: set<string>, minConfidence: real, tidy: string -> string)
    returns (validated: seq<Finding>, dropped: Dropped)
    ensures validated == Survivors(raw, known, minConfidence, tidy)
    ensures dropped.badPath == Count(raw, BadPath, known, minConfidence, tidy)
    ensures dropped.lowConfidence == Count(raw, LowConfidence, known, minConfidence, tidy)
    ensures dropped.invalid == Count(raw, Invalid, known, minConfidence, tidy)
    ensures |raw| == |validated| + dropped.badPath + dropped.lowConfidence + dropped.invalid
    ensures exists idx :: Traces(raw, validated, idx, Staying(raw, known, minConfidence), tidy)
    ensures dropped.badPath == |Wanted(|raw|, BadPaths(raw, known))|
    ensures dropped.lowConfidence == |Wanted(|raw|, LowConfidences(raw, known, minConfidence))|
    ensures dropped.invalid == |Wanted(|raw|, Reversals(raw, known, minConfidence))|
  {
    validated := [];
    dropped := Dropped(0, 0, 0);
    for i := 0 to |raw|
      invariant validated == Survivors(raw[..i], known, minConfidence, tidy)
      invariant dropped.badPath == Count(raw[..i], BadPath, known, minConfidence, tidy)
      invariant dropped.lowConfidence == Count(raw[..i], LowConfidence, known, minConfidence, tidy)
      invariant dropped.invalid == Count(raw[..i], Invalid, known, minConfidence, tidy)
      invariant i == |validated| + dropped.badPath + dropped.lowConfidence + dropped.invalid
    {
      assert raw[..i + 1][..i] == raw[..i];
      var f := raw[i];
      if f.path == "" || f.path !in known {
        dropped := dropped.(badPath := dropped.badPath + 1);
        continue;
      }
      if f.confidence < minConfidence {
        dropped := dropped.(lowConfidence := dropped.lowConfidence + 1);
        continue;
      }
      if f.startLine < 0 || f.endLine < 0 {
        f := f.(startLine := 0, endLine := 0);
      }
      if f.startLine > 0 && f.endLine > 0 && f.endLine < f.startLine {
        dropped := dropped.(invalid := dropped.invalid + 1);
        continue;
      }
      var sev := tidy(f.severity);
      if sev in ["error", "warning", "info"] {
        f := f.(severity := sev);
      } else {
        f := f.(severity := "warning");
      }
      var cat := tidy(f.category);
      if cat in ["bug", "security", "performance", "style", "test", "docs", "other"] {
        f := f.(category := cat);
      } else {
        f := f.(category := "other");
      }
      validated := validated + [f];
    }
    assert raw[..|raw|] == raw;
    ghost var idx := SurvivorsExactly(raw, |raw|, known, minConfidence, tidy);
    assert Traces(raw, validated, idx, Staying(raw, known, minConfidence), tidy);
    CountsExactly(raw, known, minConfidence, tidy);
  }

  /** A stored finding. */
  datatype Stored = Stored(id: string, fingerprint: string, finding: Finding)

  function Bare(stored: seq<Stored>): seq<Finding> {
    seq(|stored|, i requires 0 <= i < |stored| => stored[i].finding)
  }

  method EnrichResult(validated: seq<Finding>, fingerprint: (string, string, string) -> string, ids: nat -> string)
    returns (stored: seq<Stored>)
    ensures Bare(stored) == validated
    ensures forall s <- stored :: s.fingerprint == fingerprint(s.finding.path, s.finding.title, s.finding.category)
    ensures forall i | 0 <= i < |stored| :: stored[i].id == ids(i)
  {
    stored := [];
    for i := 0 to |validated|
      invariant Bare(stored) == validated[..i]
      invariant forall s <- stored :: s.fingerprint == fingerprint(s.finding.path, s.finding.title, s.finding.category)
      invariant forall k | 0 <= k < |stored| :: stored[k].id == ids(k)
    {
      assert |stored| == i by { assert |Bare(stored)| == |stored|; }
      var f := validated[i];
      stored := stored + [Stored(ids(i), fingerprint(f.path, f.title, f.category), f)];
    }
  }

  /** The line a finding is attached to; not positive if it has none. */
  function LineOf(f: Finding): int {
    if f.endLine <= 0 then f.startLine else f.endLine
  }

  datatype Comment = Comment(path: string, line: int, isError: bool, title: string, body: string)

  /** The parts of the review body, in order. */
  datatype Part =
    | Text(text: string)
    | FileLevelNotes(notes: seq<Finding>)
    | AdditionalFindings(notes: seq<Finding>)
    | Signature(model: string, shortJobId: string)

  datatype Request = Request(commitId: string, comments: seq<Comment>, parts: seq<Part>)

  const COMMENT_LIMIT := 30

  function CommentOn(f: Finding, lower: string -> string): Comment {
    Comment(f.path, LineOf(f), lower(f.severity) == "error", f.title, f.body)
  }

  function Lined(fs: seq<Finding>): seq<Finding> {
    if |fs| == 0 then []
    else Lined(fs[..|fs| - 1]) + (if LineOf(fs[|fs| - 1]) > 0 then [fs[|fs| - 1]] else [])
  }

  function Lineless(fs: seq<Finding>): seq<Finding> {
    if |fs| == 0 then []
    else Lineless(fs[..|fs| - 1]) + (if LineOf(fs[|fs| - 1]) > 0 then [] else [fs[|fs| - 1]])
  }

  function FirstThirty(fs: seq<Finding>): seq<Finding> {
    if |fs| <= COMMENT_LIMIT then fs else fs[..COMMENT_LIMIT]
  }

  function BeyondThirty(fs: seq<Finding>): seq<Finding> {
    if |fs| <= COMMENT_LIMIT then [] else fs[COMMENT_LIMIT..]
  }

  function Comments(fs: seq<Finding>, lower: string -> string): seq<Comment> {
    seq(|fs|, i requires 0 <= i < |fs| => CommentOn(fs[i], lower))
  }

  lemma {:induction false} LinesSplit(fs: seq<Finding>)
    ensures |fs| == |Lined(fs)| + |Lineless(fs)|
    ensures forall f <- Lined(fs) :: f in fs && LineOf(f) > 0
    ensures forall f <- Lineless(fs) :: f in fs && LineOf(f) <= 0
  {
    if fs != [] {
      LinesSplit(fs[..|fs| - 1]);
    }
  }

  /** No finding is lost or doubled. */
  lemma {:induction false} LinesConserve(fs: seq<Finding>)
    ensures multiset(fs) == multiset(Lined(fs)) + multiset(Lineless(fs))
  {
    if |fs| > 0 {
      var n := |fs| - 1;
      LinesConserve(fs[..n]);
      assert fs == fs[..n] + [fs[n]];
      if LineOf(fs[n]) > 0 {
        assert Lined(fs) == Lined(fs[..n]) + [fs[n]] && Lineless(fs) == Lineless(fs[..n]);
      } else {
        assert Lined(fs) == Lined(fs[..n]) && Lineless(fs) == Lineless(fs[..n]) + [fs[n]];
      }
    }
  }

  /** The loop of MapResultToRequest. */
  method Distribute(findings: seq<Stored>, lower: string -> string)
    returns (comments: seq<Comment>, inline: seq<Finding>, fileLevel: seq<Finding>, overflow: seq<Finding>)
    ensures inline == FirstThirty(Lined(Bare(findings))) && overflow == BeyondThirty(Lined(Bare(findings)))
    ensures fileLevel == Lineless(Bare(findings))
    ensures comments == Comments(inline, lower)
  {
    comments, inline, fileLevel, overflow := [], [], [], [];
    var commentLimit, commentCount := 30, 0;
    ghost var all := Bare(findings);
    for i := 0 to |findings|
      invariant commentCount == |inline| <= commentLimit
      invariant comments == Comments(inline, lower)
      invariant inline + overflow == Lined(all[..i])
      invariant overflow != [] ==> |inline| == commentLimit
      invariant fileLevel == Lineless(all[..i])
    {
      assert all[..i + 1][..i] == all[..i];
      var f := findings[i].finding;
      var line := f.endLine;
      if line <= 0 {
        line := f.startLine;
      }
      if line <= 0 {
        fileLevel := fileLevel + [f];
        continue;
      }
      if commentCount < commentLimit {
        comments := comments + [Comment(f.path, line, lower(f.severity) == "error", f.title, f.body)];
        inline := inline + [f];
        commentCount := commentCount + 1;
      } else {
        overflow := overflow + [f];
      }
    }
    assert all[..|findings|] == all;
    assert (inline + overflow)[..|inline|] == inline && (inline + overflow)[|inline|..] == overflow;
  }

  /** MapResultToRequest. The three buckets are the first thirty lined findings, the line-less ones
      and the other lined ones, each in order. */
  method MapResultToRequest(findings: seq<Stored>, summary: string, verdict: string, model: string,
                            headSha: string, signatureFlag: bool, shortJobId: string, lower: string -> string)
    returns (req: Request, inline: seq<Finding>, fileLevel: seq<Finding>, overflow: seq<Finding>)
    ensures inline == FirstThirty(Lined(Bare(findings))) && overflow == BeyondThirty(Lined(Bare(findings)))
    ensures fileLevel == Lineless(Bare(findings))
    ensures req.commitId == headSha && req.comments == Comments(inline, lower)
    ensures req.parts ==
            (if summary != "" then [Text(summary)] else if verdict != "" then [Text(verdict)] else [])
            + (if fileLevel != [] then [FileLevelNotes(fileLevel)] else [])
            + (if overflow != [] then [AdditionalFindings(overflow)] else [])
            + (if signatureFlag then [Signature(model, shortJobId)] else [])
  {
    var comments;
    comments, inline, fileLevel, overflow := Distribute(findings, lower);
    var parts := BodyParts(summary, verdict, model, signatureFlag, shortJobId, fileLevel, overflow);
    req := Request(headSha, comments, parts);
  }

  method BodyParts(summary: string, verdict: string, model: string, signatureFlag: bool, shortJobId: string,
                   fileLevel: seq<Finding>, overflow: seq<Finding>)
    returns (parts: seq<Part>)
    ensures parts ==
            (if summary != "" then [Text(summary)] else if verdict != "" then [Text(verdict)] else [])
            + (if fileLevel != [] then [FileLevelNotes(fileLevel)] else [])
            + (if overflow != [] then [AdditionalFindings(overflow)] else [])
            + (if signatureFlag then [Signature(model, shortJobId)] else [])
  {
    parts := [];
    if summary != "" {
      parts := parts + [Text(summary)];
    } else if verdict != "" {
      parts := parts + [Text(verdict)];
    }
    ghost var texts := if summary != "" then [Text(summary)] else if verdict != "" then [Text(verdict)] else [];
    assert parts == texts;
    if |fileLevel| > 0 {
      parts := parts + [FileLevelNotes(fileLevel)];
    }
    ghost var notes := if fileLevel != [] then [FileLevelNotes(fileLevel)] else [];
    assert parts == texts + notes;
    if |overflow| > 0 {
      parts := parts + [AdditionalFindings(overflow)];
    }
    ghost var more := if overflow != [] then [AdditionalFindings(overflow)] else [];
    assert parts == texts + notes + more;
    if signatureFlag {
      parts := parts + [Signature(model, shortJobId)];
    }
    assert parts == texts + notes + more + if signatureFlag then [Signature(model, shortJobId)] else [];
  }

  /** The request holds every finding exactly once, and overflows only when thirty are inline. */
  lemma RequestConserves(findings: seq<Finding>)
    ensures multiset(findings) ==
            multiset(FirstThirty(Lined(findings))) + multiset(Lineless(findings)) + multiset(BeyondThirty(Lined(findings)))
    ensures FirstThirty(Lined(findings)) + BeyondThirty(Lined(findings)) == Lined(findings)
    ensures |FirstThirty(Lined(findings))| <= 30
    ensures BeyondThirty(Lined(findings)) != [] ==> |FirstThirty(Lined(findings))| == 30
  {
    LinesConserve(findings);
    FirstAndBeyond(Lined(findings));
  }

  lemma FirstAndBeyond(fs: seq<Finding>)
    ensures FirstThirty(fs) + BeyondThirty(fs) == fs
    ensures multiset(fs) == multiset(FirstThirty(fs)) + multiset(BeyondThirty(fs))
  {
    assert FirstThirty(fs) + BeyondThirty(fs) == fs;
  }

  /** From the model's report to the request: every reported finding is inline, file-level, overflow,
      or in one of the three dropped counters; and the line of an inline comment is the larger of
      its finding's two lines, which are those of a validated finding. */
  lemma ReviewConserves(raw: seq<Finding>, known: set<string>, minConfidence: real, tidy: string -> string, lower: string -> string)
    ensures var kept := Survivors(raw, known, minConfidence, tidy);
            var inline, fileLevel, overflow := FirstThirty(Lined(kept)), Lineless(kept), BeyondThirty(Lined(kept));
            |raw| == |inline| + |fileLevel| + |overflow| + Count(raw, BadPath, known, minConfidence, tidy)
                     + Count(raw, LowConfidence, known, minConfidence, tidy) + Count(raw, Invalid, known, minConfidence, tidy)
    ensures var inline := FirstThirty(Lined(Survivors(raw, known, minConfidence, tidy)));
            forall i | 0 <= i < |inline| ::
              && WellFormed(inline[i], known, minConfidence)
              && CommentOn(inline[i], lower).line > 0
              && CommentOn(inline[i], lower).line == (if inline[i].startLine < inline[i].endLine then inline[i].endLine else inline[i].startLine)
    ensures forall f <- Lineless(Survivors(raw, known, minConfidence, tidy)) :: f.startLine == 0 && f.endLine == 0
  {
    var kept := Survivors(raw, known, minConfidence, tidy);
    CountsAddUp(raw, known, minConfidence, tidy);
    SurvivorsWellFormed(raw, known, minConfidence, tidy);
    LinesSplit(kept);
    RequestConserves(kept);
    var inline := FirstThirty(Lined(kept));
    forall i | 0 <= i < |inline| ensures inline[i] in Lined(kept) {
      assert inline[i] == Lined(kept)[i];
    }
  }

  lemma {:induction false} CountsAddUp(raw: seq<Finding>, known: set<string>, minConfidence: real, tidy: string -> string)
    ensures |raw| == |Survivors(raw, known, minConfidence, tidy)| + Count(raw, BadPath, known, minConfidence, tidy)
                     + Count(raw, LowConfidence, known, minConfidence, tidy) + Count(raw, Invalid, known, minConfidence, tidy)
  {
    if raw != [] {
      CountsAddUp(raw[..|raw| - 1], known, minConfidence, tidy);
    }
  }

  /** A finding that stays is attached to a line. */
  predicate HasLine(f: Finding) {
    f.startLine >= 0 && f.endLine >= 0 && (f.startLine > 0 || f.endLine > 0)
  }

  ghost function StayingWithLine(raw: seq<Finding>, known: set<string>, minConfidence: real): nat -> bool {
    (i: nat) => i < |raw| && Stays(raw[i], known, minConfidence) && HasLine(raw[i])
  }

  ghost function StayingWithoutLine(raw: seq<Finding>, known: set<string>, minConfidence: real): nat -> bool {
    (i: nat) => i < |raw| && Stays(raw[i], known, minConfidence) && !HasLine(raw[i])
  }

  lemma LinedOneMore(fs: seq<Finding>, f: Finding)
    ensures Lined(fs + [f]) == Lined(fs) + if LineOf(f) > 0 then [f] else []
    ensures Lineless(fs + [f]) == Lineless(fs) + if LineOf(f) > 0 then [] else [f]
  {
    assert (fs + [f])[..|fs|] == fs;
  }

  lemma {:induction false} BucketsExactly(raw: seq<Finding>, n: nat, known: set<string>, minConfidence: real, tidy: string -> string)
    returns (lined: seq<nat>, lineless: seq<nat>)
    requires n <= |raw|
    ensures var kept := Survivors(raw[..n], known, minConfidence, tidy);
            && TracesUpTo(raw, n, Lined(kept), lined, StayingWithLine(raw, known, minConfidence), tidy)
            && TracesUpTo(raw, n, Lineless(kept), lineless, StayingWithoutLine(raw, known, minConfidence), tidy)
  {
    if n == 0 {
      lined, lineless := [], [];
    } else {
      var m := n - 1;
      var a, b := BucketsExactly(raw, m, known, minConfidence, tidy);
      lined, lineless := BucketsStep(raw, m, known, minConfidence, tidy, a, b);
    }
  }

  lemma BucketsStep(raw: seq<Finding>, m: nat, known: set<string>, minConfidence: real, tidy: string -> string, a: seq<nat>, b: seq<nat>)
    returns (lined: seq<nat>, lineless: seq<nat>)
    requires m < |raw|
    requires var kept := Survivors(raw[..m], known, minConfidence, tidy);
             && TracesUpTo(raw, m, Lined(kept), a, StayingWithLine(raw, known, minConfidence), tidy)
             && TracesUpTo(raw, m, Lineless(kept), b, StayingWithoutLine(raw, known, minConfidence), tidy)
    ensures var kept := Survivors(raw[..m + 1], known, minConfidence, tidy);
            && TracesUpTo(raw, m + 1, Lined(kept), lined, StayingWithLine(raw, known, minConfidence), tidy)
            && TracesUpTo(raw, m + 1, Lineless(kept), lineless, StayingWithoutLine(raw, known, minConfidence), tidy)
  {
    var kept := Survivors(raw[..m], known, minConfidence, tidy);
    var v := Judge(raw[m], known, minConfidence, tidy);
    var g := if v.Valid? then v.finding else raw[m];
    var with, without := StayingWithLine(raw, known, minConfidence), StayingWithoutLine(raw, known, minConfidence);
    JudgedExactly(raw[m], known, minConfidence, tidy);
    assert raw[..m + 1][..m] == raw[..m];
    assert Survivors(raw[..m + 1], known, minConfidence, tidy) == kept + if v.Valid? then [g] else [];
    TracesOneMore(raw, m, Lined(kept), a, with, tidy, g);
    TracesOneMore(raw, m, Lineless(kept), b, without, tidy, g);
    lined := a + if with(m) then [m] else [];
    lineless := b + if without(m) then [m] else [];
    if v.Valid? {
      LinedOneMore(kept, g);
    } else {
      assert Survivors(raw[..m + 1], known, minConfidence, tidy) == kept;
    }
  }

  lemma BucketsTraced(raw: seq<Finding>, known: set<string>, minConfidence: real, tidy: string -> string,
                      inline: seq<Finding>, fileLevel: seq<Finding>, overflow: seq<Finding>)
    requires var kept := Survivors(raw, known, minConfidence, tidy);
             inline + overflow == Lined(kept) && fileLevel == Lineless(kept)
    ensures exists idx :: Traces(raw, inline + overflow, idx, StayingWithLine(raw, known, minConfidence), tidy)
    ensures exists idx :: Traces(raw, fileLevel, idx, StayingWithoutLine(raw, known, minConfidence), tidy)
  {
    var lined, lineless := BucketsExactly(raw, |raw|, known, minConfidence, tidy);
    assert raw[..|raw|] == raw;
    assert Traces(raw, inline + overflow, lined, StayingWithLine(raw, known, minConfidence), tidy);
    assert Traces(raw, fileLevel, lineless, StayingWithoutLine(raw, known, minConfidence), tidy);
  }

  lemma CommentsExactly(raw: seq<Finding>, known: set<string>, minConfidence: real, tidy: string -> string, lower: string -> string,
                        inline: seq<Finding>)
    requires inline == FirstThirty(Lined(Survivors(raw, known, minConfidence, tidy)))
    ensures forall i | 0 <= i < |inline| ::
              var c := Comments(inline, lower)[i];
              && WellFormed(inline[i], known, minConfidence)
              && c.path == inline[i].path && c.title == inline[i].title && c.body == inline[i].body
              && (c.isError <==> lower(inline[i].severity) == "error")
              && c.line == (if inline[i].startLine < inline[i].endLine then inline[i].endLine else inline[i].startLine)
  {
    ReviewConserves(raw, known, minConfidence, tidy, lower);
  }

  /** From the model's report to the review request, through all three functions: every reported finding
      is in exactly one of the three buckets or in one of the three dropped counters; the buckets hold
      the survivors, each once; and a comment's line is the larger line of its finding. */
  method ReviewOf(raw: seq<Finding>, known: set<string>, minConfidence: real, tidy: string -> string,
                  fingerprint: (string, string, string) -> string, ids: nat -> string,
                  summary: string, verdict: string, model: string, headSha: string, signatureFlag: bool,
                  shortJobId: string, lower: string -> string)
    returns (req: Request, dropped: Dropped, inline: seq<Finding>, fileLevel: seq<Finding>, overflow: seq<Finding>)
    ensures |raw| == |inline| + |fileLevel| + |overflow| + dropped.badPath + dropped.lowConfidence + dropped.invalid
    ensures multiset(inline) + multiset(fileLevel) + multiset(overflow) ==
            multiset(Survivors(raw, known, minConfidence, tidy))
    ensures exists idx :: Traces(raw, inline + overflow, idx, StayingWithLine(raw, known, minConfidence), tidy)
    ensures exists idx :: Traces(raw, fileLevel, idx, StayingWithoutLine(raw, known, minConfidence), tidy)
    ensures dropped.badPath == |Wanted(|raw|, BadPaths(raw, known))|
    ensures dropped.lowConfidence == |Wanted(|raw|, LowConfidences(raw, known, minConfidence))|
    ensures dropped.invalid == |Wanted(|raw|, Reversals(raw, known, minConfidence))|
    ensures |inline| <= 30 && (overflow != [] ==> |inline| == 30)
    ensures req.commitId == headSha && |req.comments| == |inline|
    ensures forall i | 0 <= i < |inline| ::
              && WellFormed(inline[i], known, minConfidence)
              && req.comments[i].path == inline[i].path
              && req.comments[i].title == inline[i].title && req.comments[i].body == inline[i].body
              && (req.comments[i].isError <==> lower(inline[i].severity) == "error")
              && req.comments[i].line == (if inline[i].startLine < inline[i].endLine then inline[i].endLine else inline[i].startLine)
    ensures fileLevel != [] ==> FileLevelNotes(fileLevel) in req.parts
    ensures overflow != [] ==> AdditionalFindings(overflow) in req.parts
  {
    var validated;
    validated, dropped := Validate(raw, known, minConfidence, tidy);
    var stored := EnrichResult(validated, fingerprint, ids);
    req, inline, fileLevel, overflow :=
      MapResultToRequest(stored, summary, verdict, model, headSha, signatureFlag, shortJobId, lower);
    CommentsExactly(raw, known, minConfidence, tidy, lower, inline);
    RequestConserves(validated);
    LinesSplit(validated);
    FirstAndBeyond(Lined(validated));
    BucketsTraced(raw, known, minConfidence, tidy, inline, fileLevel, overflow);
  }
}
