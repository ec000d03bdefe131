/**
 * From a YouTrack issue document to a host task: the fields an issue carries,
 * the lookup of a field's first value, the branch title and the task record.
 * The XML text itself is parsed by a function the model takes as a parameter.
 */
module YouTrackMapping {
  import opened Outcomes
  import opened Text
  import opened HostTypes
  import opened Branches
  import opened YouTrackQueries

  /** A `field` element: its `name` attribute and the texts of its `value` children. */
  datatype Field = Field(name: string, values: seq<string>)

  /** An `issue` element with its fields in document order. */
  datatype Issue = Issue(fields: seq<Field>)

  /** A parsed response: its `issue` elements in document order. */
  datatype Document = Document(issues: seq<Issue>)

  /** Every field of the document, in document order. */
  function AllFields(issues: seq<Issue>): (fields: seq<Field>)
    ensures |issues| == 1 ==> fields == issues[0].fields
    decreases |issues|
  {
    if issues == [] then [] else issues[0].fields + AllFields(issues[1..])
  }

  /** getTextFromXPathElement: the first node matched by //field[@name='name']/value,
      that is the first value of the first such field that has one, or "". */
  function FieldText(fields: seq<Field>, name: string): (text: string)
    ensures (forall i :: 0 <= i < |fields| ==> fields[i].name != name || fields[i].values == []) ==> text == ""
    ensures text != "" ==> exists i :: 0 <= i < |fields| && fields[i].name == name && fields[i].values != []
                                        && fields[i].values[0] == text
    decreases |fields|
  {
    if fields == [] then ""
    else if fields[0].name == name && fields[0].values != [] then fields[0].values[0]
    else
      var text := FieldText(fields[1..], name);
      assert forall i :: 1 <= i < |fields| ==> fields[i] == fields[1..][i - 1];
      text
  }

  /** The first field of that name with a value is the one read; later ones are ignored. */
  lemma {:induction false} FieldTextAt(fields: seq<Field>, name: string, k: nat)
    requires k < |fields| && fields[k].name == name && fields[k].values != []
    requires forall j :: 0 <= j < k ==> fields[j].name != name || fields[j].values == []
    ensures FieldText(fields, name) == fields[k].values[0]
    decreases k
  {
    if k > 0 {
      assert fields[0].name != name || fields[0].values == [];
      FieldTextAt(fields[1..], name, k - 1);
    }
  }

  /** getBranchTitle: the summary alone when the feature is off; "[type] summary [state]"
      when no state is ignored; otherwise the summary, followed by " [state]" unless the
      state is one of the comma-separated items of the trimmed ignore text. */
  function BranchTitle(show: bool, ignore: string, issueType: string, state: string, summary: string): (title: string)
    ensures !show ==> title == summary
    ensures show && Trim(ignore) == "" ==> title == "[" + issueType + "] " + summary + " [" + state + "]"
    ensures show && Trim(ignore) != "" ==> StartsWith(title, summary)
    ensures show && Trim(ignore) != "" && state in Split(Trim(ignore), ',') ==> title == summary
    ensures show && Trim(ignore) != "" && state !in Split(Trim(ignore), ',') ==> title == summary + " [" + state + "]"
  {
    if !show then summary
    else if Trim(ignore) == "" then "[" + issueType + "] " + summary + " [" + state + "]"
    else
      var ignoreStates := Split(Trim(ignore), ',');
      if state in ignoreStates then summary else summary + " [" + state + "]"
  }

  /** With the ignore list written as comma-separated states, the title is the bare
      summary exactly when the issue's state is one of them. */
  lemma IgnoredStateTitle(ignoreStates: seq<string>, issueType: string, state: string, summary: string)
    requires |ignoreStates| >= 1 && forall i :: 0 <= i < |ignoreStates| ==> ',' !in ignoreStates[i]
    requires Join(",", ignoreStates) != "" && Trim(Join(",", ignoreStates)) == Join(",", ignoreStates)
    ensures BranchTitle(true, Join(",", ignoreStates), issueType, state, summary) == summary
            <==> state in ignoreStates
  {
    SplitJoin(ignoreStates, ',');
  }

  /** BuildTaskFromXML over a parsed document's fields: the id is the branch prefix
      followed by the issue number, the owner, status and description are the Assignee,
      State and description fields, and the title comes from getBranchTitle. */
  function BuildTask(prefix: string, show: bool, ignore: string, fields: seq<Field>): (task: Task)
    ensures StartsWith(task.id, prefix) && task.id[|prefix|..] == FieldText(fields, "numberInProject")
    ensures task.owner == FieldText(fields, "Assignee")
    ensures task.status == FieldText(fields, "State")
    ensures task.description == FieldText(fields, "description")
    ensures task.title == BranchTitle(show, ignore, FieldText(fields, "Type"), FieldText(fields, "State"),
                                      FieldText(fields, "summary"))
  {
    var issueState := FieldText(fields, "State");
    var issueType := FieldText(fields, "Type");
    Task(prefix + FieldText(fields, "numberInProject"),
         FieldText(fields, "Assignee"),
         issueState,
         BranchTitle(show, ignore, issueType, issueState, FieldText(fields, "summary")),
         FieldText(fields, "description"))
  }

  /** BuildTasksFromXML: one task per issue element, each read from that issue alone. */
  function BuildTasks(prefix: string, show: bool, ignore: string, issues: seq<Issue>): (tasks: seq<Task>)
    ensures |tasks| == |issues|
    ensures forall i :: 0 <= i < |issues| ==> tasks[i] == BuildTask(prefix, show, ignore, issues[i].fields)
  {
    seq(|issues|, i requires 0 <= i < |issues| => BuildTask(prefix, show, ignore, issues[i].fields))
  }

  /** XmlDocument.LoadXml: an empty text is never a document; any other text is
      whatever the parser makes of it. */
  function LoadXml(parse: string -> Option<Document>, xml: string): (r: Result<Document>)
    ensures xml == "" ==> r == Err(XmlError)
    ensures r.Ok? <==> xml != "" && parse(xml).Some?
    ensures r.Ok? ==> r.value == parse(xml).value
  {
    if xml == "" then Err(XmlError)
    else if parse(xml).None? then Err(XmlError)
    else Ok(parse(xml).value)
  }

  /** A branch named after a built task, under any parent branch, leads back to that
      task's id. */
  lemma BranchOfBuiltTask(prefix: string, show: bool, ignore: string, fields: seq<Field>, parent: string)
    requires prefix != "" && ' ' !in prefix && '/' !in prefix
    requires FieldText(fields, "numberInProject") != ""
    requires ' ' !in FieldText(fields, "numberInProject") && '/' !in FieldText(fields, "numberInProject")
    ensures TaskIdFromBranchName(prefix, BranchName(parent + "/" + BuildTask(prefix, show, ignore, fields).id))
            == BuildTask(prefix, show, ignore, fields).id
  {
    var number := FieldText(fields, "numberInProject");
    var id := prefix + number;
    assert '/' !in id by {
      forall i | 0 <= i < |id| ensures id[i] != '/' {
        if i < |prefix| {
          assert id[i] == prefix[i];
        } else {
          assert id[i] == number[i - |prefix|];
        }
      }
    }
    BranchNameOfChild(parent, id);
    TaskIdOfPrefixedName(prefix, number);
  }
}
