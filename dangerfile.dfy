/** The pull-request check that warns when package.json changed without yarn.lock. */
module Dangerfile {
  import opened Wrappers

  const Message: string := "Changes were made to package.json, but not to yarn.lock"
  const Idea: string := "Perhaps you need to run `yarn install`?"

  /** The warning text: the message, " - ", and the idea in <em>. */
  const WarningText: string := Message + " - <em>" + Idea + "</em>"

  /** warnIfLockfileNotUpdated: the warning it raises, if any. */
  function LockfileWarning(modifiedFiles: seq<string>): Option<string> {
    var packageChanged := "package.json" in modifiedFiles;
    var lockfileChanged := "yarn.lock" in modifiedFiles;
    if packageChanged && !lockfileChanged then Some(WarningText) else None
  }

  /** The warnings a run of the dangerfile emits. */
  function RunWarnings(modifiedFiles: seq<string>): (warnings: seq<string>) {
    match LockfileWarning(modifiedFiles)
    case Some(w) => [w]
    case None => []
  }

  /**
   * A run warns exactly when package.json is among the modified files and
   * yarn.lock is not; at most once, with the fixed text.
   */
  lemma WarnsIff(modifiedFiles: seq<string>)
    ensures var w := RunWarnings(modifiedFiles);
      && |w| <= 1
      && (|w| == 1 <==> "package.json" in modifiedFiles && "yarn.lock" !in modifiedFiles)
      && (forall i :: 0 <= i < |w| ==> w[i] == Message + " - <em>" + Idea + "</em>")
  {
  }

  /** Changing yarn.lock as well, or not touching package.json, keeps the run silent. */
  lemma SilentCases(modifiedFiles: seq<string>)
    ensures RunWarnings(modifiedFiles + ["yarn.lock"]) == []
    ensures "package.json" !in modifiedFiles ==> RunWarnings(modifiedFiles) == []
  {
    assert "yarn.lock" in modifiedFiles + ["yarn.lock"];
  }

  /** Only which files changed matters, not their order or repetition. */
  lemma DependsOnlyOnFileSet(a: seq<string>, b: seq<string>)
    requires (set f | f in a) == (set f | f in b)
    ensures LockfileWarning(a) == LockfileWarning(b)
  {
    var sa, sb := set f | f in a, set f | f in b;
    assert ("package.json" in a <==> "package.json" in sa) && ("yarn.lock" in a <==> "yarn.lock" in sa);
    assert ("package.json" in b <==> "package.json" in sb) && ("yarn.lock" in b <==> "yarn.lock" in sb);
  }
}
