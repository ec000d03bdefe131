/**
 * The sample issue-tracker extension: tasks are posts of a JSON web service, read
 * one by one for ids and branches, or as lists for the pending-task views.
 * The service is an object that answers a URL with the deserialized post or list
 * and logs every URL it is asked for.
 */
module Sample {
  import opened Outcomes
  import opened Text
  import opened Numbers
  import opened HostTypes
  import opened Branches

  const BranchPrefixKey := "Branch prefix"
  const PostUrlPrefix := "http://jsonplaceholder.typicode.com/posts/"
  const AllPostsUrl := "http://jsonplaceholder.typicode.com/posts"
  const PostsByUserUrlPrefix := "http://jsonplaceholder.typicode.com/posts?userId="

  /** A C# `int`. */
  type Int32 = x: int | -0x8000_0000 <= x < 0x8000_0000

  /** MyServiceData: a post as the service sends it. */
  datatype ServiceData = ServiceData(userId: Int32, id: Int32, title: string, body: string)

  /** POST_URL with the task id filled in: the id reads back after the fixed part. */
  function PostUrl(taskId: string): (url: string)
    ensures StartsWith(url, PostUrlPrefix) && url[|PostUrlPrefix|..] == taskId
  {
    PostUrlPrefix + taskId
  }

  /** POSTS_BY_USER_URL with the assignee filled in. */
  function PostsByUserUrl(assignee: string): (url: string)
    ensures StartsWith(url, PostsByUserUrlPrefix) && url[|PostsByUserUrlPrefix|..] == assignee
  {
    PostsByUserUrlPrefix + assignee
  }

  /** Different task ids are looked up at different URLs. */
  lemma PostUrlInjective(a: string, b: string)
    requires PostUrl(a) == PostUrl(b)
    ensures a == b
  {
    assert a == PostUrl(a)[|PostUrlPrefix|..];
  }

  /** GetTaskIdFromBranchName as written: the prefix test compares the branch name with
      itself, so it never fails, and every other name loses its first |prefix|
      characters; a name shorter than the prefix makes Substring throw. */
  function TaskIdFromBranchName(prefix: Option<string>, branchName: string): (r: Result<string>)
    ensures prefix.None? || prefix == Some("") ==> r == Ok(branchName)
    ensures prefix.Some? && prefix.value != "" && branchName == prefix.value ==> r == Ok("")
    ensures prefix.Some? && prefix.value != "" && branchName != prefix.value ==>
              (r.Ok? <==> |prefix.value| <= |branchName|)
    ensures prefix.Some? && prefix.value != "" && branchName != prefix.value && r.Ok? ==>
              r.value == branchName[|prefix.value|..]
    ensures r.Err? ==> r.fault == ArgumentOutOfRange
  {
    if prefix.None? || prefix.value == "" then Ok(branchName)
    else if !StartsWith(branchName, branchName) || branchName == prefix.value then Ok("")
    else if |prefix.value| > |branchName| then Err(ArgumentOutOfRange)
    else Ok(branchName[|prefix.value|..])
  }

  /** A branch that does not start with the prefix still yields an id, cut at the
      prefix's length, where a prefix check would have given none. */
  lemma SelfPrefixCheck(prefix: string, branchName: string)
    requires prefix != "" && |prefix| < |branchName| && !StartsWith(branchName, prefix)
    ensures TaskIdFromBranchName(Some(prefix), branchName) == Ok(branchName[|prefix|..])
    ensures branchName[|prefix|..] != ""
    ensures IntendedTaskIdFromBranchName(Some(prefix), branchName) == ""
  {
  }

  /** The branch "main" under the prefix "yt-" is read as the task "n". */
  lemma SelfPrefixCheckExample(prefix: string, branchName: string)
    requires prefix == "yt-" && branchName == "main"
    ensures TaskIdFromBranchName(Some(prefix), branchName) == Ok("n")
  {
    assert !StartsWith(branchName, prefix) by {
      assert branchName[0] != prefix[0];
    }
    SelfPrefixCheck(prefix, branchName);
    assert branchName[3..] == "n";
  }

  /** GetTaskIdFromBranchName as evidently intended: "" unless the name starts with the
      prefix and is longer, and then the rest of the name after the prefix. */
  function IntendedTaskIdFromBranchName(prefix: Option<string>, branchName: string): (id: string)
    ensures prefix.None? || prefix == Some("") ==> id == branchName
    ensures prefix.Some? && prefix.value != "" && id != "" ==> branchName == prefix.value + id
  {
    if prefix.None? || prefix.value == "" then branchName
    else if !StartsWith(branchName, prefix.value) || branchName == prefix.value then ""
    else branchName[|prefix.value|..]
  }

  /** A branch named by the prefix and an id yields that id. */
  lemma IntendedTaskIdRoundTrip(prefix: string, id: string)
    requires prefix != "" && id != ""
    ensures IntendedTaskIdFromBranchName(Some(prefix), prefix + id) == id
  {
    assert (prefix + id)[..|prefix|] == prefix;
    assert (prefix + id)[|prefix|..] == id;
  }

  /** GetTaskIdFromBranchName(GetBranchName(fullBranchName)) with the configured prefix,
      as written: it throws exactly when the last segment is shorter than a non-empty
      prefix. */
  function BranchTaskId(config: TrackerConfiguration, fullBranchName: string): (r: Result<string>)
    ensures r.Err? <==> GetValue(config, BranchPrefixKey).Some? && GetValue(config, BranchPrefixKey).value != ""
                        && |BranchName(fullBranchName)| < |GetValue(config, BranchPrefixKey).value|
    ensures r.Err? ==> r.fault == ArgumentOutOfRange
    ensures GetValue(config, BranchPrefixKey).None? || GetValue(config, BranchPrefixKey) == Some("") ==>
              r == Ok(BranchName(fullBranchName))
    ensures GetValue(config, BranchPrefixKey) == Some(BranchName(fullBranchName)) && BranchName(fullBranchName) != "" ==>
              r == Ok("")
    ensures var prefix := GetValue(config, BranchPrefixKey);
            prefix.Some? && prefix.value != "" && BranchName(fullBranchName) != prefix.value && r.Ok? ==>
              r.value == BranchName(fullBranchName)[|prefix.value|..]
  {
    TaskIdFromBranchName(GetValue(config, BranchPrefixKey), BranchName(fullBranchName))
  }

  /** BuildTaskFromJson: null stays null; otherwise the post's id and user id as text,
      its title and body, and the status "working". */
  function BuildTaskFromJson(data: Option<ServiceData>): (task: Option<Task>)
    ensures task.None? <==> data.None?
    ensures task.Some? ==> task.value.status == "working" && task.value.title == data.value.title
                           && task.value.description == data.value.body
  {
    if data.None? then None
    else Some(Task(IntToString(data.value.id), IntToString(data.value.userId), "working",
                   data.value.title, data.value.body))
  }

  /** The id and owner of a built task read back as the post's id and user id. */
  lemma BuildTaskFromJsonNumbers(data: ServiceData)
    ensures TryParseInt32(BuildTaskFromJson(Some(data)).value.id) == Some(data.id as int)
    ensures TryParseInt32(BuildTaskFromJson(Some(data)).value.owner) == Some(data.userId as int)
  {
    TryParseIntToString(data.id as int);
    TryParseIntToString(data.userId as int);
  }

  /** LoadSingleTask: no task and no request for an empty id; otherwise the post. */
  function SingleTask(posts: string -> Option<ServiceData>, taskId: string): (task: Option<Task>)
    ensures taskId == "" ==> task.None?
    ensures taskId != "" ==> task == BuildTaskFromJson(posts(PostUrl(taskId)))
  {
    if taskId == "" then None else BuildTaskFromJson(posts(PostUrl(taskId)))
  }

  /** The URLs LoadSingleTask requests. */
  function SingleTaskRequests(taskId: string): (urls: seq<string>)
    ensures taskId == "" <==> urls == []
    ensures taskId != "" ==> urls == [PostUrl(taskId)]
  {
    if taskId == "" then [] else [PostUrl(taskId)]
  }

  function Present(task: Option<Task>): seq<Task> {
    if task.Some? then [task.value] else []
  }

  /** LoadTasks: the tasks that load, in the order of their ids. */
  function LoadedTasks(posts: string -> Option<ServiceData>, taskIds: seq<string>): (tasks: seq<Task>)
    ensures |tasks| <= |taskIds|
    decreases |taskIds|
  {
    if taskIds == [] then []
    else LoadedTasks(posts, taskIds[..|taskIds| - 1]) + Present(SingleTask(posts, taskIds[|taskIds| - 1]))
  }

  /** The URLs LoadTasks requests: one per non-empty id, in order. */
  function LoadRequests(taskIds: seq<string>): (urls: seq<string>)
    ensures |urls| <= |taskIds|
    decreases |taskIds|
  {
    if taskIds == [] then []
    else LoadRequests(taskIds[..|taskIds| - 1]) + SingleTaskRequests(taskIds[|taskIds| - 1])
  }

  /** One more id: the tasks and requests so far, then those of that id. */
  lemma LoadStep(posts: string -> Option<ServiceData>, taskIds: seq<string>, i: nat)
    requires i < |taskIds|
    ensures LoadedTasks(posts, taskIds[..i + 1]) == LoadedTasks(posts, taskIds[..i]) + Present(SingleTask(posts, taskIds[i]))
    ensures LoadRequests(taskIds[..i + 1]) == LoadRequests(taskIds[..i]) + SingleTaskRequests(taskIds[i])
  {
    assert taskIds[..i + 1][..i] == taskIds[..i];
  }

  /** Loading two lists of ids one after the other gives the tasks of the first list
      followed by those of the second. */
  lemma {:induction false} LoadedTasksAppend(posts: string -> Option<ServiceData>, first: seq<string>, second: seq<string>)
    ensures LoadedTasks(posts, first + second) == LoadedTasks(posts, first) + LoadedTasks(posts, second)
    decreases |second|
  {
    if second == [] {
      assert first + second == first;
    } else {
      assert (first + second)[..|first + second| - 1] == first + second[..|second| - 1];
      LoadedTasksAppend(posts, first, second[..|second| - 1]);
    }
  }

  /** The same for the requests: those of the first list, then those of the second. */
  lemma {:induction false} LoadRequestsAppend(first: seq<string>, second: seq<string>)
    ensures LoadRequests(first + second) == LoadRequests(first) + LoadRequests(second)
    decreases |second|
  {
    if second == [] {
      assert first + second == first;
    } else {
      assert (first + second)[..|first + second| - 1] == first + second[..|second| - 1];
      LoadRequestsAppend(first, second[..|second| - 1]);
    }
  }

  /** An empty id adds neither a task nor a request. */
  lemma LoadedTasksSkipEmpty(posts: string -> Option<ServiceData>, before: seq<string>, after: seq<string>)
    ensures LoadedTasks(posts, before + [""] + after) == LoadedTasks(posts, before + after)
    ensures LoadRequests(before + [""] + after) == LoadRequests(before + after)
  {
    var withEmpty := before + [""];
    assert withEmpty[..|withEmpty| - 1] == before;
    assert LoadedTasks(posts, withEmpty) == LoadedTasks(posts, before);
    assert LoadRequests(withEmpty) == LoadRequests(before);
    LoadedTasksAppend(posts, withEmpty, after);
    LoadedTasksAppend(posts, before, after);
    LoadRequestsAppend(withEmpty, after);
    LoadRequestsAppend(before, after);
  }

  /** No two branch names are the same. */
  predicate Distinct(names: seq<string>) {
    forall i, j :: 0 <= i < j < |names| ==> names[i] != names[j]
  }

  /** GetTasksForBranches: a dictionary from each full branch name to the task of its id;
      a name whose id cannot be cut makes Substring throw, and a name that comes twice
      makes Dictionary.Add throw. */
  function TasksForBranches(posts: string -> Option<ServiceData>, config: TrackerConfiguration, names: seq<string>)
    : (r: Result<map<string, Option<Task>>>)
    ensures r.Err? ==> r.fault.DuplicateKey? || r.fault == ArgumentOutOfRange
    decreases |names|
  {
    if names == [] then Ok(map[])
    else
      var found := TasksForBranches(posts, config, names[..|names| - 1]);
      if found.Err? then found else AddBranch(posts, config, found.value, names[|names| - 1])
  }

  /** One name of GetTasksForBranches: its id is cut (Substring may throw), its task is
      loaded, and Dictionary.Add throws when the name is already a key. */
  function AddBranch(posts: string -> Option<ServiceData>, config: TrackerConfiguration,
                     found: map<string, Option<Task>>, name: string): (r: Result<map<string, Option<Task>>>)
    ensures r.Err? ==> r.fault == ArgumentOutOfRange || r.fault == DuplicateKey(name)
    ensures r.Ok? <==> BranchTaskId(config, name).Ok? && name !in found
    ensures r.Ok? ==> r.value.Keys == found.Keys + {name}
                      && r.value[name] == SingleTask(posts, BranchTaskId(config, name).value)
                      && forall k :: k in found ==> r.value[k] == found[k]
  {
    var id := BranchTaskId(config, name);
    if id.Err? then Err(id.fault)
    else if name in found then Err(DuplicateKey(name))
    else Ok(found[name := SingleTask(posts, id.value)])
  }

  /** The request one name sends: none when its id cannot be cut, else the one for its id,
      sent before Dictionary.Add can throw. */
  function StepRequests(config: TrackerConfiguration, name: string): (urls: seq<string>)
    ensures |urls| <= 1
    ensures urls == [] <==> BranchTaskId(config, name).Err? || BranchTaskId(config, name).value == ""
  {
    var id := BranchTaskId(config, name);
    if id.Err? then [] else SingleTaskRequests(id.value)
  }

  /** The URLs GetTasksForBranches requests: one per name whose id is cut and not empty,
      in order, up to the name that makes it throw. A repeated name is still looked up
      before Dictionary.Add throws. */
  function BranchRequests(posts: string -> Option<ServiceData>, config: TrackerConfiguration, names: seq<string>)
    : (urls: seq<string>)
    ensures |urls| <= |names|
    decreases |names|
  {
    if names == [] then []
    else
      var init := names[..|names| - 1];
      if TasksForBranches(posts, config, init).Err? then BranchRequests(posts, config, init)
      else BranchRequests(posts, config, init) + StepRequests(config, names[|names| - 1])
  }

  /** A list of names with one more at the end is without repeats exactly when the list
      was and the new name is not in it. */
  lemma DistinctSnoc(names: seq<string>, last: string)
    ensures Distinct(names + [last]) <==> Distinct(names) && last !in names
  {
    var all := names + [last];
    if Distinct(all) {
      forall i | 0 <= i < |names| ensures names[i] != last {
        assert all[i] == names[i] && all[|names|] == last;
      }
      forall i, j | 0 <= i < j < |names| ensures names[i] != names[j] {
        assert all[i] == names[i] && all[j] == names[j];
      }
    }
    if Distinct(names) && last !in names {
      forall i, j | 0 <= i < j < |all| ensures all[i] != all[j] {
        if j == |names| {
          assert all[i] == names[i];
        } else {
          assert all[i] == names[i] && all[j] == names[j];
        }
      }
    }
  }

  /** Every name's id can be cut from it. */
  predicate IdsComputable(config: TrackerConfiguration, names: seq<string>) {
    forall name :: name in names ==> BranchTaskId(config, name).Ok?
  }

  /** The dictionary is built exactly when no name repeats and every name's id can be cut. */
  lemma {:induction false} TasksForBranchesOk(posts: string -> Option<ServiceData>, config: TrackerConfiguration, names: seq<string>)
    ensures TasksForBranches(posts, config, names).Ok? <==> Distinct(names) && IdsComputable(config, names)
    decreases |names|
  {
    if names != [] {
      var init, last := names[..|names| - 1], names[|names| - 1];
      TasksForBranchesOk(posts, config, init);
      assert names == init + [last];
      TasksForBranchesOkStep(posts, config, init, last);
    }
  }

  /** The induction step of TasksForBranchesOk: one more name keeps the characterisation. */
  lemma TasksForBranchesOkStep(posts: string -> Option<ServiceData>, config: TrackerConfiguration, init: seq<string>, last: string)
    requires TasksForBranches(posts, config, init).Ok? <==> Distinct(init) && IdsComputable(config, init)
    ensures TasksForBranches(posts, config, init + [last]).Ok? <==> Distinct(init + [last]) && IdsComputable(config, init + [last])
  {
    DistinctSnoc(init, last);
    IdsComputableSnoc(config, init, last);
    var names := init + [last];
    assert names[..|names| - 1] == init;
    var built := TasksForBranches(posts, config, init);
    if built.Ok? {
      TasksForBranchesKeys(posts, config, init);
      assert TasksForBranches(posts, config, names) == AddBranch(posts, config, built.value, last);
      assert last in built.value <==> last in init;
    }
  }

  /** Every id of a list with one more name computes exactly when every id of the list
      does and the new name's id does. */
  lemma IdsComputableSnoc(config: TrackerConfiguration, names: seq<string>, last: string)
    ensures IdsComputable(config, names + [last]) <==> IdsComputable(config, names) && BranchTaskId(config, last).Ok?
  {
    assert forall name :: name in names + [last] <==> name in names || name == last;
  }

  /** A built dictionary holds every name, each with the task of its own id. */
  lemma {:induction false} TasksForBranchesKeys(posts: string -> Option<ServiceData>, config: TrackerConfiguration, names: seq<string>)
    ensures TasksForBranches(posts, config, names).Ok? ==>
              var m := TasksForBranches(posts, config, names).value;
              (forall name :: name in m <==> name in names)
              && forall name :: name in m ==>
                   BranchTaskId(config, name).Ok? && m[name] == SingleTask(posts, BranchTaskId(config, name).value)
    decreases |names|
  {
    if names != [] {
      var init := names[..|names| - 1];
      TasksForBranchesKeys(posts, config, init);
      assert names == init + [names[|names| - 1]];
    }
  }

  /** Once the call throws, the later names change nothing: neither the failure nor the
      requests sent. */
  lemma {:induction false} BranchTasksErrorStays(posts: string -> Option<ServiceData>, config: TrackerConfiguration, names: seq<string>, k: nat)
    requires k <= |names| && TasksForBranches(posts, config, names[..k]).Err?
    ensures TasksForBranches(posts, config, names) == TasksForBranches(posts, config, names[..k])
    ensures BranchRequests(posts, config, names) == BranchRequests(posts, config, names[..k])
    decreases |names|
  {
    if k == |names| {
      assert names[..k] == names;
    } else {
      var init := names[..|names| - 1];
      assert init[..k] == names[..k];
      BranchTasksErrorStays(posts, config, init, k);
    }
  }

  /** One more name after a successful prefix: the dictionary is AddBranch of the one
      built so far and the name's request is appended; when that step throws, the names
      after it change nothing. */
  lemma BranchStep(posts: string -> Option<ServiceData>, config: TrackerConfiguration, names: seq<string>, i: nat,
                   found: map<string, Option<Task>>)
    requires i < |names| && TasksForBranches(posts, config, names[..i]) == Ok(found)
    ensures TasksForBranches(posts, config, names[..i + 1]) == AddBranch(posts, config, found, names[i])
    ensures BranchRequests(posts, config, names[..i + 1])
            == BranchRequests(posts, config, names[..i]) + StepRequests(config, names[i])
    ensures AddBranch(posts, config, found, names[i]).Err? ==>
              TasksForBranches(posts, config, names) == AddBranch(posts, config, found, names[i])
              && BranchRequests(posts, config, names) == BranchRequests(posts, config, names[..i + 1])
  {
    assert names[..i + 1][..i] == names[..i];
    if AddBranch(posts, config, found, names[i]).Err? {
      BranchTasksErrorStays(posts, config, names, i + 1);
    }
  }

  /** GetPendingTasks(assignee) sends no request unless the assignee parses as an int. */
  function AssigneeAccepted(assignee: string): (accepted: bool)
    ensures accepted <==> TryParseInt32(assignee).Some?
    ensures accepted ==> exists i :: 0 <= i < |assignee| && IsDigit(assignee[i])
  {
    assignee != "" && TryParseInt32(assignee).Some?
  }

  /** QueryServiceForTasks: one task (or null) per post of the list; a null list makes
      the loop throw. */
  function TasksFromPosts(list: Option<seq<Option<ServiceData>>>): (r: Result<seq<Option<Task>>>)
    ensures r.Err? <==> list.None?
    ensures r.Ok? ==> |r.value| == |list.value|
    ensures r.Ok? ==> forall i :: 0 <= i < |list.value| ==> r.value[i] == BuildTaskFromJson(list.value[i])
  {
    if list.None? then Err(NullReference)
    else Ok(seq(|list.value|, i requires 0 <= i < |list.value| => BuildTaskFromJson(list.value[i])))
  }

  /** The JSON web service: PerformJsonRequest followed by the deserializer, for a single
      post and for a list of posts; a failed request reads as null. */
  class JsonService {
    const posts: string -> Option<ServiceData>
    const lists: string -> Option<seq<Option<ServiceData>>>
    var log: seq<string>

    constructor (posts: string -> Option<ServiceData>, lists: string -> Option<seq<Option<ServiceData>>>)
      ensures this.posts == posts && this.lists == lists && log == []
    {
      this.posts := posts;
      this.lists := lists;
      log := [];
    }

    method GetPost(url: string) returns (data: Option<ServiceData>)
      modifies this
      ensures data == posts(url) && log == old(log) + [url]
    {
      data := posts(url);
      log := log + [url];
    }

    method GetPosts(url: string) returns (list: Option<seq<Option<ServiceData>>>)
      modifies this
      ensures list == lists(url) && log == old(log) + [url]
    {
      list := lists(url);
      log := log + [url];
    }
  }

  /** The extension object: its configuration and the service it reads. */
  class SampleExtension {
    const config: TrackerConfiguration
    const service: JsonService

    constructor (config: TrackerConfiguration, service: JsonService)
      ensures this.config == config && this.service == service
    {
      this.config := config;
      this.service := service;
    }

    method GetPendingTasksOf(assignee: string) returns (r: Result<seq<Option<Task>>>)
      modifies service
      ensures !AssigneeAccepted(assignee) ==> r == Ok([]) && service.log == old(service.log)
      ensures AssigneeAccepted(assignee) ==>
                r == TasksFromPosts(service.lists(PostsByUserUrl(assignee)))
                && service.log == old(service.log) + [PostsByUserUrl(assignee)]
    {
      if assignee == "" || TryParseInt32(assignee).None? {
        return Ok([]);
      }
      r := QueryServiceForTasks(PostsByUserUrl(assignee));
    }

    method GetPendingTasks() returns (r: Result<seq<Option<Task>>>)
      modifies service
      ensures r == TasksFromPosts(service.lists(AllPostsUrl)) && service.log == old(service.log) + [AllPostsUrl]
    {
      r := QueryServiceForTasks(AllPostsUrl);
    }

    method GetTaskForBranch(fullBranchName: string) returns (r: Result<Option<Task>>)
      modifies service
      ensures BranchTaskId(config, fullBranchName).Err? ==>
                r == Err(ArgumentOutOfRange) && service.log == old(service.log)
      ensures BranchTaskId(config, fullBranchName).Ok? ==>
                var id := BranchTaskId(config, fullBranchName).value;
                r == Ok(SingleTask(service.posts, id)) && service.log == old(service.log) + SingleTaskRequests(id)
    {
      var taskId := BranchTaskId(config, fullBranchName);
      if taskId.Err? {
        return Err(taskId.fault);
      }
      var task := LoadSingleTask(taskId.value);
      r := Ok(task);
    }

    method GetTasksForBranches(fullBranchNames: seq<string>) returns (r: Result<map<string, Option<Task>>>)
      modifies service
      ensures r == TasksForBranches(service.posts, config, fullBranchNames)
      ensures service.log == old(service.log) + BranchRequests(service.posts, config, fullBranchNames)
    {
      var result: map<string, Option<Task>> := map[];
      for i := 0 to |fullBranchNames|
        invariant TasksForBranches(service.posts, config, fullBranchNames[..i]) == Ok(result)
        invariant service.log == old(service.log) + BranchRequests(service.posts, config, fullBranchNames[..i])
      {
        ghost var sent := service.log;
        BranchStep(service.posts, config, fullBranchNames, i, result);
        var next := AddTaskForBranch(result, fullBranchNames[i]);
        assert service.log == old(service.log) + BranchRequests(service.posts, config, fullBranchNames[..i + 1]) by {
          assert service.log == sent + StepRequests(config, fullBranchNames[i]);
        }
        if next.Err? {
          return next;
        }
        result := next.value;
      }
      assert fullBranchNames[..|fullBranchNames|] == fullBranchNames;
      r := Ok(result);
    }

    /** The loop body of GetTasksForBranches: cut the id, load its task, add the entry. */
    method AddTaskForBranch(result: map<string, Option<Task>>, fullBranchName: string)
      returns (r: Result<map<string, Option<Task>>>)
      modifies service
      ensures r == AddBranch(service.posts, config, result, fullBranchName)
      ensures service.log == old(service.log) + StepRequests(config, fullBranchName)
    {
      var taskId := BranchTaskId(config, fullBranchName);
      if taskId.Err? {
        return Err(taskId.fault);
      }
      var task := LoadSingleTask(taskId.value);
      if fullBranchName in result {
        return Err(DuplicateKey(fullBranchName));
      }
      r := Ok(result[fullBranchName := task]);
    }

    method LoadTasks(taskIds: seq<string>) returns (tasks: seq<Task>)
      modifies service
      ensures tasks == LoadedTasks(service.posts, taskIds)
      ensures service.log == old(service.log) + LoadRequests(taskIds)
    {
      var posts := service.posts;
      tasks := [];
      for i := 0 to |taskIds|
        invariant tasks == LoadedTasks(posts, taskIds[..i])
        invariant service.log == old(service.log) + LoadRequests(taskIds[..i])
      {
        LoadStep(posts, taskIds, i);
        var loadedTask := LoadSingleTask(taskIds[i]);
        if loadedTask.Some? {
          tasks := tasks + [loadedTask.value];
        }
      }
      assert taskIds[..|taskIds|] == taskIds;
    }

    method TestConnection(configuration: TrackerConfiguration) returns (ok: bool)
      ensures ok
    {
      ok := true;
    }

    method LoadSingleTask(taskId: string) returns (task: Option<Task>)
      modifies service
      ensures task == SingleTask(service.posts, taskId)
      ensures service.log == old(service.log) + SingleTaskRequests(taskId)
    {
      if taskId == "" {
        return None;
      }
      var data := service.GetPost(PostUrl(taskId));
      task := BuildTaskFromJson(data);
    }

    method QueryServiceForTasks(uri: string) returns (r: Result<seq<Option<Task>>>)
      modifies service
      ensures r == TasksFromPosts(service.lists(uri)) && service.log == old(service.log) + [uri]
    {
      var deserializedServiceData := service.GetPosts(uri);
      if deserializedServiceData.None? {
        return Err(NullReference);
      }
      var items := deserializedServiceData.value;
      var result: seq<Option<Task>> := [];
      for i := 0 to |items|
        invariant |result| == i
        invariant forall k :: 0 <= k < i ==> result[k] == BuildTaskFromJson(items[k])
      {
        result := result + [BuildTaskFromJson(items[i])];
      }
      assert result == TasksFromPosts(Some(items)).value;
      r := Ok(result);
    }
  }
}
