/** truncate.go: the loop over a pull request's files, proved against a closed form that looks at
    each file on its own, and the accounting that comes with it. A string is a sequence of bytes;
    `lower` is strings.ToLower and `detect` is detectLanguage. */
module Truncate {

  datatype ChangedFile = ChangedFile(
    path: string,
    status: string,
    previousPath: string,
    language: string,
    patch: string,
    omitted: bool,
    omitReason: string)

  datatype Info = Info(
    maxFiles: int,
    maxPatchBytes: int,
    filesTotal: int,
    filesIncluded: int,
    filesOmitted: int,
    patchBytesTotal: int,
    patchBytesKept: int,
    truncatedByFiles: bool,
    truncatedByBytes: bool)

  const SKIP_PREFIXES := ["vendor/", "node_modules/"]
  const SKIP_SUFFIXES := [".min.js", "go.sum", "package-lock.json", "pnpm-lock.yaml", "yarn.lock", "bun.lockb"]

  predicate HasSuffix(s: string, suffix: string) {
    |suffix| <= |s| && s[|s| - |suffix|..] == suffix
  }

  predicate Skipped(lowerPath: string) {
    || (exists p <- SKIP_PREFIXES :: p <= lowerPath)
    || (exists x <- SKIP_SUFFIXES :: HasSuffix(lowerPath, x))
  }

  function FileLimit(maxFiles: int): (n: int)
    ensures n > 0
  {
    if maxFiles <= 0 then 40 else maxFiles
  }

  function ByteLimit(maxPatchBytes: int): (n: int)
    ensures n > 0
  {
    if maxPatchBytes <= 0 then 409600 else maxPatchBytes
  }

  function Min(a: int, b: int): int {
    if a < b then a else b
  }

  function Max(a: int, b: int): int {
    if a < b then b else a
  }

  function Take(s: string, n: int): string {
    if n <= 0 then "" else if n >= |s| then s else s[..n]
  }

  /** How many of these files are not skipped. */
  function Rank(files: seq<ChangedFile>, lower: string -> string): nat {
    if files == [] then 0
    else
      var n := |files| - 1;
      Rank(files[..n], lower) + (if Skipped(lower(files[n].path)) then 0 else 1)
  }

  /** The patch bytes of those of these files that are not skipped. */
  function Bytes(files: seq<ChangedFile>, lower: string -> string): nat {
    if files == [] then 0
    else
      var n := |files| - 1;
      Bytes(files[..n], lower) + (if Skipped(lower(files[n].path)) then 0 else |files[n].patch|)
  }

  /** The closed form: the patch of file i after truncation. */
  function KeptPatch(files: seq<ChangedFile>, i: nat, maxFiles: int, maxBytes: int, lower: string -> string): string
    requires i < |files|
  {
    if Skipped(lower(files[i].path)) || Rank(files[..i], lower) >= maxFiles then ""
    else Take(files[i].patch, maxBytes - Bytes(files[..i], lower))
  }

  /** What becomes of a file. */
  datatype Fate = SkippedPath | OverFiles | Empty | Whole | Cut | OverBytes
  {
    /** Files that count against the limit. */
    predicate Counts() {
      Empty? || Whole? || Cut?
    }

    /** Files whose patch counts as seen. */
    predicate Weighs() {
      Whole? || Cut? || OverBytes?
    }
  }

  /** The fate of a file, from the number of files that count before it and the bytes before it. */
  function FateOf(f: ChangedFile, counted: nat, bytes: nat, maxFiles: int, maxBytes: int, lower: string -> string): Fate {
    if Skipped(lower(f.path)) then SkippedPath
    else if counted >= maxFiles then OverFiles
    else if f.patch == "" then Empty
    else if bytes + |f.patch| <= maxBytes then Whole
    else if bytes < maxBytes then Cut
    else OverBytes
  }

  /** How many of these files count. */
  function Counted(files: seq<ChangedFile>, maxFiles: int, maxBytes: int, lower: string -> string): nat
    decreases |files|, 0
  {
    if files == [] then 0
    else
      Counted(files[..|files| - 1], maxFiles, maxBytes, lower) +
      (if FateAt(files, |files| - 1, maxFiles, maxBytes, lower).Counts() then 1 else 0)
  }

  function FateAt(files: seq<ChangedFile>, i: nat, maxFiles: int, maxBytes: int, lower: string -> string): Fate
    requires i < |files|
    decreases i, 1
  {
    FateOf(files[i], Counted(files[..i], maxFiles, maxBytes, lower), Bytes(files[..i], lower), maxFiles, maxBytes, lower)
  }

  /** The bytes of the patches that were weighed against the limit: of the files that are not skipped, not
      empty, and reached before enough files counted. */
  function Weighed(files: seq<ChangedFile>, maxFiles: int, maxBytes: int, lower: string -> string): nat {
    if files == [] then 0
    else
      Weighed(files[..|files| - 1], maxFiles, maxBytes, lower) +
      (if FateAt(files, |files| - 1, maxFiles, maxBytes, lower).Weighs() then |files[|files| - 1].patch| else 0)
  }

  /** How many of these files have this fate. */
  function CountOf(files: seq<ChangedFile>, fate: Fate, maxFiles: int, maxBytes: int, lower: string -> string): nat {
    if files == [] then 0
    else
      CountOf(files[..|files| - 1], fate, maxFiles, maxBytes, lower) +
      (if FateAt(files, |files| - 1, maxFiles, maxBytes, lower) == fate then 1 else 0)
  }

  function Reason(fate: Fate): string
    requires !fate.Whole?
  {
    match fate
    case SkippedPath => "skipped path"
    case OverFiles => "max files limit exceeded"
    case Empty => "binary or empty patch"
    case Cut => "partially truncated due to patch bytes limit"
    case OverBytes => "max patch bytes limit exceeded"
  }

  /** The whole file after truncation: path, status and previous path are kept, a file that is not skipped
      gets its language, and the fate decides patch, flag and reason. */
  function Truncated(f: ChangedFile, fate: Fate, room: int, lower: string -> string, detect: string -> string): ChangedFile {
    var g := if fate.SkippedPath? then f else f.(language := detect(f.path));
    if fate.Whole? then g
    else g.(patch := if fate.Cut? then Take(f.patch, room) else "", omitted := true, omitReason := Reason(fate))
  }

  function TruncatedAt(files: seq<ChangedFile>, i: nat, maxFiles: int, maxBytes: int, lower: string -> string, detect: string -> string): ChangedFile
    requires i < |files|
  {
    Truncated(files[i], FateAt(files, i, maxFiles, maxBytes, lower), maxBytes - Bytes(files[..i], lower), lower, detect)
  }

  function PatchBytes(files: seq<ChangedFile>): nat {
    if files == [] then 0 else PatchBytes(files[..|files| - 1]) + |files[|files| - 1].patch|
  }

  /** Files that come out with a patch, whole or cut. */
  function Patched(files: seq<ChangedFile>): nat {
    if files == [] then 0
    else Patched(files[..|files| - 1]) + (if files[|files| - 1].patch != "" then 1 else 0)
  }

  /** Some patch was reached that does not fit any more. */
  ghost predicate Overflows(files: seq<ChangedFile>, n: nat, maxFiles: int, maxBytes: int, lower: string -> string)
    requires n <= |files|
  {
    exists i | 0 <= i < n ::
      && !Skipped(lower(files[i].path))
      && Rank(files[..i], lower) < maxFiles
      && files[i].patch != ""
      && Bytes(files[..i + 1], lower) > maxBytes
  }

  /** One more file. */
  lemma Grows(files: seq<ChangedFile>, i: nat, maxFiles: int, maxBytes: int, lower: string -> string)
    requires i < |files|
    ensures var fate, n := FateAt(files, i, maxFiles, maxBytes, lower), i + 1;
            && Rank(files[..n], lower) == Rank(files[..i], lower) + (if fate.SkippedPath? then 0 else 1)
            && Bytes(files[..n], lower) == Bytes(files[..i], lower) + (if fate.SkippedPath? then 0 else |files[i].patch|)
            && Counted(files[..n], maxFiles, maxBytes, lower)
               == Counted(files[..i], maxFiles, maxBytes, lower) + (if fate.Counts() then 1 else 0)
            && Weighed(files[..n], maxFiles, maxBytes, lower)
               == Weighed(files[..i], maxFiles, maxBytes, lower) + (if fate.Weighs() then |files[i].patch| else 0)
            && CountOf(files[..n], Empty, maxFiles, maxBytes, lower)
               == CountOf(files[..i], Empty, maxFiles, maxBytes, lower) + (if fate.Empty? then 1 else 0)
  {
    assert files[..i + 1][..i] == files[..i];
  }

  lemma RankGrows(files: seq<ChangedFile>, i: nat, lower: string -> string)
    requires i < |files|
    ensures Rank(files[..i + 1], lower) == Rank(files[..i], lower) + (if Skipped(lower(files[i].path)) then 0 else 1)
    ensures Bytes(files[..i + 1], lower) == Bytes(files[..i], lower) + (if Skipped(lower(files[i].path)) then 0 else |files[i].patch|)
  {
    assert files[..i + 1][..i] == files[..i];
  }

  lemma PatchBytesGrow(out: seq<ChangedFile>, g: ChangedFile)
    ensures PatchBytes(out + [g]) == PatchBytes(out) + |g.patch|
  {
    assert (out + [g])[..|out|] == out;
  }

  /** The counters, one file on, in plain terms: a file counts if it is not skipped, is reached before enough
      others counted, and is empty or finds room; its bytes are weighed if it is reached likewise. */
  lemma CountersGrow(files: seq<ChangedFile>, i: nat, maxFiles: int, maxBytes: int, lower: string -> string)
    requires i < |files|
    ensures var reached := !Skipped(lower(files[i].path)) && Counted(files[..i], maxFiles, maxBytes, lower) < maxFiles;
            && Counted(files[..i + 1], maxFiles, maxBytes, lower)
               == Counted(files[..i], maxFiles, maxBytes, lower)
                  + (if reached && (files[i].patch == "" || |files[i].patch| <= maxBytes - Bytes(files[..i], lower) || 0 < maxBytes - Bytes(files[..i], lower))
                     then 1 else 0)
            && Weighed(files[..i + 1], maxFiles, maxBytes, lower)
               == Weighed(files[..i], maxFiles, maxBytes, lower) + (if reached then |files[i].patch| else 0)
            && CountOf(files[..i + 1], Empty, maxFiles, maxBytes, lower)
               == CountOf(files[..i], Empty, maxFiles, maxBytes, lower) + (if reached && files[i].patch == "" then 1 else 0)
  {
    Grows(files, i, maxFiles, maxBytes, lower);
  }

  /** How the counters of the specification hang together: as long as nothing overflows, every file that
      is not skipped counts and every byte is weighed, up to the limit on files; after that the bytes
      before stay above the limit. */
  ghost predicate Consistent(counted: nat, rank: nat, weighed: nat, bytes: nat, cut: bool, maxFiles: int, maxBytes: int) {
    && counted <= maxFiles && counted <= rank
    && (!cut ==> counted == Min(rank, maxFiles) && weighed <= maxBytes && (counted < maxFiles ==> weighed == bytes))
    && (cut ==> weighed > maxBytes && bytes > maxBytes)
  }

  lemma ConsistentStep(f: ChangedFile, counted: nat, rank: nat, weighed: nat, bytes: nat, cut: bool,
                       maxFiles: int, maxBytes: int, lower: string -> string)
    requires Consistent(counted, rank, weighed, bytes, cut, maxFiles, maxBytes)
    ensures var fate := FateOf(f, counted, bytes, maxFiles, maxBytes, lower);
            var bytes' := bytes + if fate.SkippedPath? then 0 else |f.patch|;
            var over := !Skipped(lower(f.path)) && rank < maxFiles && f.patch != "" && bytes' > maxBytes;
            Consistent(
              counted + if fate.Counts() then 1 else 0,
              rank + if fate.SkippedPath? then 0 else 1,
              weighed + if fate.Weighs() then |f.patch| else 0,
              bytes', cut || over, maxFiles, maxBytes)
  {
  }

  lemma OverflowsGrows(files: seq<ChangedFile>, i: nat, maxFiles: int, maxBytes: int, lower: string -> string)
    requires i < |files|
    ensures Overflows(files, i + 1, maxFiles, maxBytes, lower) <==>
            || Overflows(files, i, maxFiles, maxBytes, lower)
            || (&& !Skipped(lower(files[i].path)) && Rank(files[..i], lower) < maxFiles
                && files[i].patch != "" && Bytes(files[..i + 1], lower) > maxBytes)
  {
  }

  lemma {:induction false} Counters(files: seq<ChangedFile>, n: nat, maxFiles: int, maxBytes: int, lower: string -> string)
    requires n <= |files| && maxFiles > 0 && maxBytes > 0
    ensures Consistent(Counted(files[..n], maxFiles, maxBytes, lower), Rank(files[..n], lower),
                       Weighed(files[..n], maxFiles, maxBytes, lower), Bytes(files[..n], lower),
                       Overflows(files, n, maxFiles, maxBytes, lower), maxFiles, maxBytes)
  {
    if n > 0 {
      var i := n - 1;
      Counters(files, i, maxFiles, maxBytes, lower);
      Grows(files, i, maxFiles, maxBytes, lower);
      OverflowsGrows(files, i, maxFiles, maxBytes, lower);
      ConsistentStep(files[i], Counted(files[..i], maxFiles, maxBytes, lower), Rank(files[..i], lower),
                     Weighed(files[..i], maxFiles, maxBytes, lower), Bytes(files[..i], lower),
                     Overflows(files, i, maxFiles, maxBytes, lower), maxFiles, maxBytes, lower);
    }
  }

  /** The patch of a truncated file is the closed form. */
  lemma FateKeepsPatch(files: seq<ChangedFile>, i: nat, maxFiles: int, maxBytes: int, lower: string -> string, detect: string -> string)
    requires i < |files| && maxFiles > 0 && maxBytes > 0
    ensures TruncatedAt(files, i, maxFiles, maxBytes, lower, detect).patch == KeptPatch(files, i, maxFiles, maxBytes, lower)
  {
    Counters(files, i, maxFiles, maxBytes, lower);
  }

  lemma SkippedExactly(l: string)
    ensures Skipped(l) <==>
            || "vendor/" <= l || "node_modules/" <= l
            || HasSuffix(l, ".min.js") || HasSuffix(l, "go.sum") || HasSuffix(l, "package-lock.json")
            || HasSuffix(l, "pnpm-lock.yaml") || HasSuffix(l, "yarn.lock") || HasSuffix(l, "bun.lockb")
  {
    assert SKIP_PREFIXES[0] in SKIP_PREFIXES && SKIP_PREFIXES[1] in SKIP_PREFIXES;
    assert SKIP_SUFFIXES[0] in SKIP_SUFFIXES && SKIP_SUFFIXES[1] in SKIP_SUFFIXES && SKIP_SUFFIXES[2] in SKIP_SUFFIXES;
    assert SKIP_SUFFIXES[3] in SKIP_SUFFIXES && SKIP_SUFFIXES[4] in SKIP_SUFFIXES && SKIP_SUFFIXES[5] in SKIP_SUFFIXES;
  }

  /** The columns beside the patch: identity is kept, a file that is not skipped gets its language, a whole
      patch leaves flag and reason alone, and any other file is marked as omitted with the one reason that
      applies; `open` says that fewer files than allowed counted before it. */
  ghost predicate Described(f: ChangedFile, g: ChangedFile, open: bool, lower: string -> string, detect: string -> string) {
    var skipped := Skipped(lower(f.path));
    && g.path == f.path && g.status == f.status && g.previousPath == f.previousPath
    && g.language == (if skipped then f.language else detect(f.path))
    && (g.patch == f.patch != "" ==> g.omitted == f.omitted && g.omitReason == f.omitReason)
    && (g.patch != f.patch || f.patch == "" ==>
      && g.omitted
      && (g.omitReason == "skipped path" <==> skipped)
      && (g.omitReason == "max files limit exceeded" <==> !skipped && !open)
      && (g.omitReason == "binary or empty patch" <==> !skipped && open && f.patch == "")
      && (g.omitReason == "partially truncated due to patch bytes limit" <==> g.patch != "")
      && (g.omitReason == "max patch bytes limit exceeded" <==> !skipped && open && f.patch != "" && g.patch == ""))
  }

  lemma TruncatedIsDescribed(files: seq<ChangedFile>, i: nat, maxFiles: int, maxBytes: int, lower: string -> string, detect: string -> string)
    requires i < |files|
    ensures Described(files[i], TruncatedAt(files, i, maxFiles, maxBytes, lower, detect),
                      Counted(files[..i], maxFiles, maxBytes, lower) < maxFiles, lower, detect)
  {
  }

  method IsSkippedPath(path: string, lower: string -> string) returns (skipped: bool)
    ensures skipped <==> Skipped(lower(path))
    ensures var l := lower(path);
            skipped <==>
            || "vendor/" <= l || "node_modules/" <= l
            || HasSuffix(l, ".min.js") || HasSuffix(l, "go.sum") || HasSuffix(l, "package-lock.json")
            || HasSuffix(l, "pnpm-lock.yaml") || HasSuffix(l, "yarn.lock") || HasSuffix(l, "bun.lockb")
  {
    SkippedExactly(lower(path));
    var lowerPath := lower(path);
    skipped := false;
    for k := 0 to |SKIP_PREFIXES|
      invariant !skipped
      invariant forall p <- SKIP_PREFIXES[..k] :: !(p <= lowerPath)
    {
      if SKIP_PREFIXES[k] <= lowerPath {
        assert SKIP_PREFIXES[k] in SKIP_PREFIXES;
        return true;
      }
      assert SKIP_PREFIXES[..k + 1] == SKIP_PREFIXES[..k] + [SKIP_PREFIXES[k]];
    }
    assert SKIP_PREFIXES[..|SKIP_PREFIXES|] == SKIP_PREFIXES;
    for k := 0 to |SKIP_SUFFIXES|
      invariant !skipped
      invariant forall x <- SKIP_SUFFIXES[..k] :: !HasSuffix(lowerPath, x)
    {
      if HasSuffix(lowerPath, SKIP_SUFFIXES[k]) {
        assert SKIP_SUFFIXES[k] in SKIP_SUFFIXES;
        return true;
      }
    }
    assert SKIP_SUFFIXES[..|SKIP_SUFFIXES|] == SKIP_SUFFIXES;
  }

  /** What the loop knows after i files. */
  ghost predicate Tally(files: seq<ChangedFile>, i: nat, maxFiles: int, maxBytes: int, lower: string -> string,
                        included: int, omitted: int, total: int, kept: int, cut: bool)
    requires i <= |files|
  {
    && included == Counted(files[..i], maxFiles, maxBytes, lower)
    && included + omitted == i + CountOf(files[..i], Empty, maxFiles, maxBytes, lower)
    && total == Weighed(files[..i], maxFiles, maxBytes, lower)
    && kept == Min(total, maxBytes)
    && (cut <==> Overflows(files, i, maxFiles, maxBytes, lower))
  }

  /** What the specification says of one more file, in the terms of the loop. */
  lemma TallyGrows(files: seq<ChangedFile>, i: nat, maxFiles: int, maxBytes: int, lower: string -> string,
                   included: int, omitted: int, total: int, kept: int, cut: bool)
    requires i < |files| && maxFiles > 0 && maxBytes > 0
    requires Tally(files, i, maxFiles, maxBytes, lower, included, omitted, total, kept, cut)
    ensures !Skipped(lower(files[i].path)) && included < maxFiles && files[i].patch != "" ==>
              var fits := !cut && kept + |files[i].patch| <= maxBytes;
              && (Overflows(files, i + 1, maxFiles, maxBytes, lower) <==> !fits)
              && (fits <==> FateAt(files, i, maxFiles, maxBytes, lower).Whole?)
              && (!cut ==> kept == total == Bytes(files[..i], lower))
              && (cut ==> kept == maxBytes && Bytes(files[..i], lower) >= maxBytes)
    ensures Skipped(lower(files[i].path)) || included >= maxFiles || files[i].patch == "" ==>
              (Overflows(files, i + 1, maxFiles, maxBytes, lower) <==> cut)
  {
    Counters(files, i, maxFiles, maxBytes, lower);
    Grows(files, i, maxFiles, maxBytes, lower);
    OverflowsGrows(files, i, maxFiles, maxBytes, lower);
  }

  /** The body of the loop: one file and the five counters. */
  method TruncateOne(ghost files: seq<ChangedFile>, ghost i: nat, f: ChangedFile, maxFiles: int, maxPatchBytes: int,
                     lower: string -> string, detect: string -> string,
                     included: int, omitted: int, total: int, kept: int, cut: bool)
    returns (g: ChangedFile, included': int, omitted': int, total': int, kept': int, cut': bool)
    requires i < |files| && files[i] == f && maxPatchBytes > 0 && maxFiles > 0
    requires Tally(files, i, maxFiles, maxPatchBytes, lower, included, omitted, total, kept, cut)
    ensures g == TruncatedAt(files, i, maxFiles, maxPatchBytes, lower, detect)
    ensures Tally(files, i + 1, maxFiles, maxPatchBytes, lower, included', omitted', total', kept', cut')
    ensures kept' == kept + |g.patch|
  {
    TallyGrows(files, i, maxFiles, maxPatchBytes, lower, included, omitted, total, kept, cut);
    Grows(files, i, maxFiles, maxPatchBytes, lower);
    g, included', omitted', total', kept', cut' := f, included, omitted, total, kept, cut;
    var isSkipped := IsSkippedPath(f.path, lower);
    if isSkipped {
      g := g.(omitted := true, omitReason := "skipped path", patch := "");
      omitted' := omitted + 1;
      return;
    }
    g := g.(language := detect(f.path));
    if included >= maxFiles {
      g := g.(omitted := true, omitReason := "max files limit exceeded", patch := "");
      omitted' := omitted + 1;
      return;
    }
    if g.patch == "" {
      g := g.(omitted := true, omitReason := "binary or empty patch");
      omitted' := omitted + 1;
      included' := included + 1;
      return;
    }
    var patchLen := |g.patch|;
    total' := total + patchLen;
    if cut {
      g := g.(omitted := true, omitReason := "max patch bytes limit exceeded", patch := "");
      omitted' := omitted + 1;
    } else if kept + patchLen <= maxPatchBytes {
      kept' := kept + patchLen;
      included' := included + 1;
    } else {
      cut' := true;
      var remaining := maxPatchBytes - kept;
      if remaining > 0 {
        g := g.(patch := g.patch[..remaining], omitted := true, omitReason := "partially truncated due to patch bytes limit");
        kept' := kept + remaining;
        included' := included + 1;
      } else {
        g := g.(patch := "", omitted := true, omitReason := "max patch bytes limit exceeded");
        omitted' := omitted + 1;
      }
    }
  }

  lemma PatchedGrows(out: seq<ChangedFile>, i: nat)
    requires i < |out|
    ensures Patched(out[..i + 1]) == Patched(out[..i]) + (if out[i].patch != "" then 1 else 0)
  {
    assert out[..i + 1][..i] == out[..i];
  }

  lemma PatchOfFate(files: seq<ChangedFile>, i: nat, f: int, b: int, lower: string -> string, detect: string -> string)
    requires i < |files|
    ensures var fate := FateAt(files, i, f, b, lower);
            (TruncatedAt(files, i, f, b, lower, detect).patch != "" <==> fate.Whole? || fate.Cut?)
  {
  }

  /** The files that count are those that come out with a patch and the empty ones that were let in. */
  lemma {:induction false} PatchedOrEmpty(files: seq<ChangedFile>, out: seq<ChangedFile>, n: nat, f: int, b: int,
                                         lower: string -> string, detect: string -> string)
    requires n <= |files| == |out|
    requires forall i | 0 <= i < n :: out[i] == TruncatedAt(files, i, f, b, lower, detect)
    ensures Counted(files[..n], f, b, lower) == Patched(out[..n]) + CountOf(files[..n], Empty, f, b, lower)
  {
    if n > 0 {
      PatchedOrEmpty(files, out, n - 1, f, b, lower, detect);
      Grows(files, n - 1, f, b, lower);
      PatchedGrows(out, n - 1);
      PatchOfFate(files, n - 1, f, b, lower, detect);
    }
  }

  /** What the outputs mean, in the terms of the closed form. */
  lemma TotalsAddUp(files: seq<ChangedFile>, out: seq<ChangedFile>, f: int, b: int, lower: string -> string, detect: string -> string)
    requires f > 0 && b > 0 && |out| == |files|
    requires forall i | 0 <= i < |files| :: out[i] == TruncatedAt(files, i, f, b, lower, detect)
    ensures forall i | 0 <= i < |files| :: out[i].patch == KeptPatch(files, i, f, b, lower)
    ensures Overflows(files, |files|, f, b, lower) <==> Weighed(files, f, b, lower) > b
    ensures Counted(files, f, b, lower) == Patched(out) + CountOf(files, Empty, f, b, lower) <= f
  {
    Counters(files, |files|, f, b, lower);
    PatchedOrEmpty(files, out, |files|, f, b, lower, detect);
    assert files[..|files|] == files && out[..|out|] == out;
    forall i | 0 <= i < |files| ensures out[i].patch == KeptPatch(files, i, f, b, lower) {
      FateKeepsPatch(files, i, f, b, lower, detect);
    }
  }

  method TruncatePRFiles(files: seq<ChangedFile>, maxFiles0: int, maxPatchBytes0: int, lower: string -> string, detect: string -> string)
    returns (processed: seq<ChangedFile>, info: Info)
    ensures |processed| == |files|
    ensures var f, b := FileLimit(maxFiles0), ByteLimit(maxPatchBytes0);
            && (forall i | 0 <= i < |files| :: processed[i] == TruncatedAt(files, i, f, b, lower, detect))
            && (forall i | 0 <= i < |files| :: processed[i].patch == KeptPatch(files, i, f, b, lower))
            && (forall i | 0 <= i < |files| ::
                  Described(files[i], processed[i], Counted(files[..i], f, b, lower) < f, lower, detect))
            && info.maxFiles == f && info.maxPatchBytes == b && info.filesTotal == |files|
            && info.filesIncluded == Counted(files, f, b, lower) == Patched(processed) + CountOf(files, Empty, f, b, lower) <= f
            && info.filesIncluded + info.filesOmitted == |files| + CountOf(files, Empty, f, b, lower)
            && info.patchBytesTotal == Weighed(files, f, b, lower)
            && info.patchBytesKept == PatchBytes(processed) == Min(info.patchBytesTotal, b)
            && (info.truncatedByBytes <==> Overflows(files, |files|, f, b, lower))
            && (info.truncatedByBytes <==> info.patchBytesTotal > b)
            && (info.truncatedByFiles <==> |files| > info.filesIncluded)
    ensures info.maxFiles == (if maxFiles0 > 0 then maxFiles0 else 40)
    ensures info.maxPatchBytes == (if maxPatchBytes0 > 0 then maxPatchBytes0 else 409600)
  {
    var maxFiles, maxPatchBytes := maxFiles0, maxPatchBytes0;
    if maxFiles <= 0 {
      maxFiles := 40;
    }
    if maxPatchBytes <= 0 {
      maxPatchBytes := 409600;
    }
    processed := [];
    var filesIncludedCount, filesOmittedCount := 0, 0;
    var patchBytesTotal, patchBytesKept := 0, 0;
    var truncatedByBytes := false;
    for i := 0 to |files|
      invariant |processed| == i
      invariant forall k | 0 <= k < i :: processed[k] == TruncatedAt(files, k, maxFiles, maxPatchBytes, lower, detect)
      invariant patchBytesKept == PatchBytes(processed)
      invariant Tally(files, i, maxFiles, maxPatchBytes, lower, filesIncludedCount, filesOmittedCount,
                      patchBytesTotal, patchBytesKept, truncatedByBytes)
    {
      var file;
      file, filesIncludedCount, filesOmittedCount, patchBytesTotal, patchBytesKept, truncatedByBytes :=
        TruncateOne(files, i, files[i], maxFiles, maxPatchBytes, lower, detect,
                    filesIncludedCount, filesOmittedCount, patchBytesTotal, patchBytesKept, truncatedByBytes);
      PatchBytesGrow(processed, file);
      processed := processed + [file];
    }
    assert files[..|files|] == files;
    TotalsAddUp(files, processed, maxFiles, maxPatchBytes, lower, detect);
    forall i | 0 <= i < |files|
      ensures Described(files[i], processed[i], Counted(files[..i], maxFiles, maxPatchBytes, lower) < maxFiles, lower, detect)
    {
      TruncatedIsDescribed(files, i, maxFiles, maxPatchBytes, lower, detect);
    }
    info := Info(maxFiles, maxPatchBytes, |files|, filesIncludedCount, filesOmittedCount,
                 patchBytesTotal, patchBytesKept, |files| > filesIncludedCount, truncatedByBytes);
  }

  lemma TakeLength(s: string, n: int)
    ensures |Take(s, n)| == Min(|s|, Max(n, 0))
  {
  }

  /** Prefixes of the files before and after a pass have the same rank, and what is left of the
      budget is what was left. */
  lemma {:induction false} PassKeepsRank(files: seq<ChangedFile>, out: seq<ChangedFile>, i: nat, maxFiles: int, maxBytes: int, lower: string -> string)
    requires i <= |files| == |out| && maxBytes > 0 && maxFiles > 0
    requires forall k | 0 <= k < |files| :: out[k].path == files[k].path && out[k].patch == KeptPatch(files, k, maxFiles, maxBytes, lower)
    ensures Rank(out[..i], lower) == Rank(files[..i], lower)
    ensures Rank(files[..i], lower) <= maxFiles ==> Bytes(out[..i], lower) == Min(Bytes(files[..i], lower), maxBytes)
  {
    if i > 0 {
      PassKeepsRank(files, out, i - 1, maxFiles, maxBytes, lower);
      RankGrows(files, i - 1, lower);
      RankGrows(out, i - 1, lower);
      TakeLength(files[i - 1].patch, maxBytes - Bytes(files[..i - 1], lower));
    }
  }

  /** A second pass over the result, under the same limits, changes no patch. */
  lemma SecondPassChangesNothing(files: seq<ChangedFile>, out: seq<ChangedFile>, i: nat, maxFiles: int, maxBytes: int, lower: string -> string)
    requires i < |files| == |out| && maxBytes > 0 && maxFiles > 0
    requires forall k | 0 <= k < |files| :: out[k].path == files[k].path && out[k].patch == KeptPatch(files, k, maxFiles, maxBytes, lower)
    ensures KeptPatch(out, i, maxFiles, maxBytes, lower) == out[i].patch
  {
    PassKeepsRank(files, out, i, maxFiles, maxBytes, lower);
  }

  /** Raising either limit only extends patches. */
  lemma HigherLimitsExtend(files: seq<ChangedFile>, i: nat, f: int, f': int, b: int, b': int, lower: string -> string)
    requires i < |files| && 0 < f <= f' && 0 < b <= b'
    ensures KeptPatch(files, i, f, b, lower) <= KeptPatch(files, i, f', b', lower)
  {
    var rest := b - Bytes(files[..i], lower);
    assert Take(files[i].patch, rest) <= Take(files[i].patch, b' - Bytes(files[..i], lower));
  }
}
