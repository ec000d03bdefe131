/**
 * Branch names as the host passes them: a full path such as "/main/yt-42",
 * of which an extension only looks at the last segment.
 */
module Branches {
  import opened Text

  /** GetBranchName: the text after the last '/'; the whole name when there is no
      '/', and "" when the name ends in '/'. */
  function BranchName(fullBranchName: string): (name: string)
    ensures '/' !in fullBranchName ==> name == fullBranchName
    ensures '/' in fullBranchName ==> name == fullBranchName[LastIndexOf(fullBranchName, '/') + 1..]
    ensures |fullBranchName| > 0 && fullBranchName[|fullBranchName| - 1] == '/' ==> name == ""
    ensures '/' !in name
  {
    var lastSeparatorIndex := LastIndexOf(fullBranchName, '/');
    if lastSeparatorIndex < 0 then fullBranchName
    else if lastSeparatorIndex == |fullBranchName| - 1 then ""
    else fullBranchName[lastSeparatorIndex + 1..]
  }

  /** The last segment of a path is found again whatever the parent path is. */
  lemma BranchNameOfChild(parent: string, name: string)
    requires '/' !in name
    ensures BranchName(parent + "/" + name) == name
  {
    var full := parent + "/" + name;
    assert full[|parent|] == '/';
    assert full[|parent| + 1..] == name;
    LastIndexOfAt(full, '/', |parent|);
  }
}
