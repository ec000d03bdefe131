/**
 * The types the host application hands to an issue-tracker extension and
 * receives from it: the stored key/value configuration and the task record.
 */
module HostTypes {
  import opened Outcomes

  /** ExtensionWorkingMode; `ModeNone` is the host's "not chosen yet". */
  datatype WorkingMode = ModeNone | TaskOnBranch | TaskOnChangeset

  /** IssueTrackerConfigurationParameterType, restricted to the kinds used here. */
  datatype ParameterType = HostType | BooleanType | TextType | UserType

  /** IssueTrackerConfigurationParameter; a null value is modelled as "". */
  datatype Parameter = Parameter(name: string, value: string, kind: ParameterType, isGlobal: bool)

  /** IssueTrackerConfiguration: a working mode and a list of named parameters. */
  datatype TrackerConfiguration = TrackerConfiguration(workingMode: WorkingMode, parameters: seq<Parameter>)

  /** IssueTrackerConfiguration.GetValue: the value of the first parameter with
      that name, or null when there is none. */
  function GetValue(config: TrackerConfiguration, name: string): (r: Option<string>)
    ensures r.None? <==> forall i :: 0 <= i < |config.parameters| ==> config.parameters[i].name != name
    ensures r.Some? ==> exists i :: 0 <= i < |config.parameters| && config.parameters[i].name == name
                                    && config.parameters[i].value == r.value
                                    && forall j :: 0 <= j < i ==> config.parameters[j].name != name
  {
    FirstValue(config.parameters, name)
  }

  function FirstValue(ps: seq<Parameter>, name: string): (r: Option<string>)
    ensures r.None? <==> forall i :: 0 <= i < |ps| ==> ps[i].name != name
    ensures r.Some? ==> exists i :: 0 <= i < |ps| && ps[i].name == name && ps[i].value == r.value
                                    && forall j :: 0 <= j < i ==> ps[j].name != name
    decreases |ps|
  {
    if ps == [] then None
    else if ps[0].name == name then Some(ps[0].value)
    else
      var r := FirstValue(ps[1..], name);
      assert forall i :: 1 <= i < |ps| ==> ps[i] == ps[1..][i - 1];
      r
  }

  /** The first parameter carrying a name is the one GetValue reads. */
  lemma {:induction false} FirstValueAt(ps: seq<Parameter>, name: string, i: nat)
    requires i < |ps| && ps[i].name == name
    requires forall j :: 0 <= j < i ==> ps[j].name != name
    ensures FirstValue(ps, name) == Some(ps[i].value)
    decreases i
  {
    if i > 0 {
      assert ps[0].name != name;
      FirstValueAt(ps[1..], name, i - 1);
    }
  }

  /** PlasticTask; a field the extension leaves null is modelled as "". */
  datatype Task = Task(id: string, owner: string, status: string, title: string, description: string)

  /** A task that carries only its id. */
  function BareTask(id: string): Task {
    Task(id, "", "", "", "")
  }
}
