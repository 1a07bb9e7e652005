/** prompt.go: every file is listed, patches are shown as long as they fit. `preamble` is everything
    before the files; a string is a sequence of bytes. */
module Prompt {
  import opened Truncate

  function Budget(tokens: int): (n: int)
    ensures n > 0
    ensures n == if tokens > 0 then tokens + tokens + tokens + tokens else 400_000
  {
    4 * (if tokens <= 0 then 100000 else tokens)
  }

  function Header(f: ChangedFile): string {
    "\nFile: " + f.path + "\nStatus: " + f.status + "\n" +
    (if f.language != "" then "Language: " + f.language + "\n" else "")
  }

  function PatchText(f: ChangedFile): string {
    "Patch:\n" + f.patch + "\n"
  }

  const OVER_BUDGET := "Omitted reason: patch omitted due to prompt budget limit\n"

  /** Whether a file's patch is shown in a prompt that is so long already. */
  predicate Shown(f: ChangedFile, length: int, budget: int) {
    !f.omitted && length + |Header(f)| + |PatchText(f)| <= budget
  }

  function Entry(f: ChangedFile, length: int, budget: int): string {
    Header(f) +
    (if f.omitted then "Omitted reason: " + f.omitReason + "\n"
     else if Shown(f, length, budget) then PatchText(f)
     else OVER_BUDGET)
  }

  function Written(preamble: string, files: seq<ChangedFile>, budget: int): string {
    if files == [] then preamble
    else
      var n := |files| - 1;
      var before := Written(preamble, files[..n], budget);
      before + Entry(files[n], |before|, budget)
  }

  method BuildPrompt(preamble: string, files: seq<ChangedFile>, promptBudgetTokens: int) returns (prompt: string)
    ensures prompt == Written(preamble, files, Budget(promptBudgetTokens))
  {
    var tokens := promptBudgetTokens;
    if tokens <= 0 {
      tokens := 100000;
    }
    var charBudget := tokens * 4;
    prompt := preamble;
    for i := 0 to |files|
      invariant prompt == Written(preamble, files[..i], charBudget)
    {
      assert files[..i + 1][..i] == files[..i];
      var f := files[i];
      ghost var before := prompt;
      var fileHeader := "\nFile: " + f.path + "\nStatus: " + f.status + "\n";
      if f.language != "" {
        fileHeader := fileHeader + ("Language: " + f.language + "\n");
      }
      assert fileHeader == Header(f);
      if f.omitted {
        fileHeader := fileHeader + ("Omitted reason: " + f.omitReason + "\n");
        prompt := prompt + fileHeader;
        continue;
      }
      var patchText := "Patch:\n" + f.patch + "\n";
      var totalEst := |prompt| + |fileHeader| + |patchText|;
      if totalEst > charBudget {
        fileHeader := fileHeader + "Omitted reason: patch omitted due to prompt budget limit\n";
        prompt := prompt + fileHeader;
      } else {
        prompt := prompt + fileHeader;
        prompt := prompt + patchText;
        assert prompt == before + (fileHeader + patchText);
      }
    }
    assert files[..|files|] == files;
  }

  lemma {:induction false} PromptGrows(preamble: string, files: seq<ChangedFile>, i: nat, budget: int)
    requires i <= |files|
    ensures Written(preamble, files[..i], budget) <= Written(preamble, files, budget)
  {
    if i < |files| {
      var n := |files| - 1;
      PromptGrows(preamble, files[..n], i, budget);
      assert files[..n][..i] == files[..i];
    } else {
      assert files[..i] == files;
    }
  }

  lemma EntryOf(f: ChangedFile, before: string, budget: int)
    ensures Header(f) <= Entry(f, |before|, budget)
    ensures Shown(f, |before|, budget) <==> !f.omitted && |before + Header(f) + PatchText(f)| <= budget
    ensures Shown(f, |before|, budget) ==> before + Entry(f, |before|, budget) == before + Header(f) + PatchText(f)
  {
  }

  /** Every file has its place, in order: the prompt up to file i, then its header, then its patch or
      the reason why not. A patch is shown exactly when the file is not omitted and the prompt, the
      patch included, is still within the budget at that point. */
  lemma EveryFileInOrder(preamble: string, files: seq<ChangedFile>, i: nat, budget: int)
    requires i < |files|
    ensures var before, upTo := Written(preamble, files[..i], budget), Written(preamble, files[..i + 1], budget);
            && upTo <= Written(preamble, files, budget)
            && before + Header(files[i]) <= upTo
            && (Shown(files[i], |before|, budget) <==> !files[i].omitted && |before + Header(files[i]) + PatchText(files[i])| <= budget)
            && (Shown(files[i], |before|, budget) ==> upTo == before + Header(files[i]) + PatchText(files[i]) && |upTo| <= budget)
  {
    var before := Written(preamble, files[..i], budget);
    assert files[..i + 1][..i] == files[..i];
    PromptGrows(preamble, files, i + 1, budget);
    EntryOf(files[i], before, budget);
    assert Written(preamble, files[..i + 1], budget) == before + Entry(files[i], |before|, budget);
  }

  /** What a file's place in the prompt says, word for word. */
  lemma EntryReads(f: ChangedFile, length: int, budget: int)
    ensures var head := "\nFile: " + f.path + "\nStatus: " + f.status + "\n" + (if f.language == "" then "" else "Language: " + f.language + "\n");
            var patch := "Patch:\n" + f.patch + "\n";
            Entry(f, length, budget) ==
            head + (if f.omitted then "Omitted reason: " + f.omitReason + "\n"
                    else if length + |head| + |patch| <= budget then patch
                    else "Omitted reason: patch omitted due to prompt budget limit\n")
  {
  }

  lemma EveryFileReads(preamble: string, files: seq<ChangedFile>, i: nat, budget: int)
    requires i < |files|
    ensures var f, before := files[i], Written(preamble, files[..i], budget);
            var head := "\nFile: " + f.path + "\nStatus: " + f.status + "\n" + (if f.language == "" then "" else "Language: " + f.language + "\n");
            var patch := "Patch:\n" + f.patch + "\n";
            var entry :=
              head + (if f.omitted then "Omitted reason: " + f.omitReason + "\n"
                      else if |before| + |head| + |patch| <= budget then patch
                      else "Omitted reason: patch omitted due to prompt budget limit\n");
            Written(preamble, files[..i + 1], budget) == before + entry && before + entry <= Written(preamble, files, budget)
  {
    var before := Written(preamble, files[..i], budget);
    assert files[..i + 1][..i] == files[..i];
    EntryReads(files[i], |before|, budget);
    PromptGrows(preamble, files, i + 1, budget);
  }

  /** The length of the entries that show no patch. */
  function HeaderOnly(preamble: string, files: seq<ChangedFile>, budget: int): nat {
    if files == [] then 0
    else
      var n := |files| - 1;
      var before := Written(preamble, files[..n], budget);
      HeaderOnly(preamble, files[..n], budget) +
      (if Shown(files[n], |before|, budget) then 0 else |Entry(files[n], |before|, budget)|)
  }

  /** The prompt is no longer than the budget, or the preamble if that is longer, plus the entries
      without a patch. */
  lemma {:induction false} PromptIsBounded(preamble: string, files: seq<ChangedFile>, budget: int)
    ensures |Written(preamble, files, budget)| <= Max(budget, |preamble|) + HeaderOnly(preamble, files, budget)
  {
    if files != [] {
      PromptIsBounded(preamble, files[..|files| - 1], budget);
    }
  }

  /** The patch bytes in the prompt. */
  function ShownBytes(preamble: string, files: seq<ChangedFile>, budget: int): nat {
    if files == [] then 0
    else
      var n := |files| - 1;
      ShownBytes(preamble, files[..n], budget) +
      (if Shown(files[n], |Written(preamble, files[..n], budget)|, budget) then |files[n].patch| else 0)
  }

  function OmittedBytes(files: seq<ChangedFile>): nat {
    if files == [] then 0
    else OmittedBytes(files[..|files| - 1]) + (if files[|files| - 1].omitted then |files[|files| - 1].patch| else 0)
  }

  lemma {:induction false} OmittedAreNotShown(preamble: string, files: seq<ChangedFile>, budget: int)
    ensures ShownBytes(preamble, files, budget) + OmittedBytes(files) <= PatchBytes(files)
  {
    if files != [] {
      OmittedAreNotShown(preamble, files[..|files| - 1], budget);
    }
  }

  lemma {:induction false} OmittedIncludes(files: seq<ChangedFile>, i: nat)
    requires i < |files| && files[i].omitted
    ensures OmittedBytes(files) >= |files[i].patch|
  {
    var n := |files| - 1;
    if i < n {
      OmittedIncludes(files[..n], i);
    }
  }

  /** A patch that truncation has cut is counted among the bytes kept but never shown: what the
      prompt shows falls short of the bytes kept by at least the cut patch. */
  method TruncateAndBuild(raw: seq<ChangedFile>, maxFiles: int, maxPatchBytes: int, lower: string -> string, detect: string -> string,
                          preamble: string, tokens: int)
    returns (prompt: string, files: seq<ChangedFile>, info: Info)
    ensures |files| == |raw| && prompt == Written(preamble, files, Budget(tokens))
    ensures ShownBytes(preamble, files, Budget(tokens)) <= info.patchBytesKept <= ByteLimit(maxPatchBytes)
    ensures forall i | 0 <= i < |raw| && files[i].patch != raw[i].patch ::
              ShownBytes(preamble, files, Budget(tokens)) + |files[i].patch| <= info.patchBytesKept
  {
    files, info := TruncatePRFiles(raw, maxFiles, maxPatchBytes, lower, detect);
    prompt := BuildPrompt(preamble, files, tokens);
    OmittedAreNotShown(preamble, files, Budget(tokens));
    forall i | 0 <= i < |raw| && files[i].patch != raw[i].patch
      ensures ShownBytes(preamble, files, Budget(tokens)) + |files[i].patch| <= info.patchBytesKept
    {
      assert files[i] == TruncatedAt(raw, i, FileLimit(maxFiles), ByteLimit(maxPatchBytes), lower, detect);
      OmittedIncludes(files, i);
    }
  }
}
