/**
 * The YouTrack extension itself: the session it keeps with the server, the tasks it
 * loads for ids and branches, the unresolved issues it lists and the commands and
 * comments it sends after a checkin. Each operation is first a function of the
 * session and the server's script, then a method of `YoutrackExtension` proved to
 * do what that function says.
 */
module YouTrack {
  import opened Outcomes
  import opened Text
  import opened HostTypes
  import opened Configuration
  import opened Branches
  import opened Escaping
  import opened YouTrackQueries
  import opened YouTrackMapping
  import opened YouTrackCheckin
  import opened YouTrackSession

  /** What the extension reads besides the session: the stored configuration, the two
      branch-title settings, the XML parser and the regular-expression engine used for
      a command pattern other than the default one. */
  datatype Env = Env(stored: Stored, show: bool, ignore: string,
                     parseXml: string -> Option<Document>,
                     matchRegex: (string, string) -> Option<CommandMatch>)

  /** The login URL built from a configuration's BaseURL, User and Password. */
  function ConfiguredLogin(stored: Stored): (url: string)
    ensures StartsWith(url, BaseUrl(stored) + "/rest/user/login?")
    ensures '&' !in User(stored) && '&' !in Password(stored) ==>
              Split(url[|BaseUrl(stored) + "/rest/user/login?"|..], '&')
              == ["login=" + User(stored), "password=" + Password(stored)]
  {
    LoginUrl(BaseUrl(stored), User(stored), Password(stored))
  }

  /** GetTaskIdFromBranchName(GetBranchName(fullBranchName)) with the configured prefix. */
  function BranchTaskId(stored: Stored, fullBranchName: string): (id: string)
    ensures var name, prefix := BranchName(fullBranchName), BranchPrefix(stored);
            !StartsWith(name, prefix) || name == prefix ==> id == ""
    ensures id != "" ==> StartsWith(BranchName(fullBranchName), id) && ' ' !in id
    ensures id != "" ==> |id| == |BranchName(fullBranchName)| || BranchName(fullBranchName)[|id|] == ' '
    ensures var name, prefix := BranchName(fullBranchName), BranchPrefix(stored);
            ' ' !in prefix && StartsWith(name, prefix) && name != prefix ==> StartsWith(id, prefix)
  {
    var name, prefix := BranchName(fullBranchName), BranchPrefix(stored);
    var id := TaskIdFromBranchName(prefix, name);
    assert ' ' !in prefix && StartsWith(name, prefix) && name != prefix ==>
             |prefix| <= |id| && id[..|prefix|] == name[..|prefix|] by {
      if ' ' !in prefix && StartsWith(name, prefix) && name != prefix {
        assert forall i :: 0 <= i < |prefix| ==> name[i] == prefix[i] && name[i] != ' ';
      }
    }
    id
  }

  /** BuildTaskFromXML on a response: the task of the whole document, or the parser's error. */
  function TaskFromXml(env: Env, xml: string): (r: Result<Task>)
    ensures xml == "" ==> r == Err(XmlError)
    ensures r.Ok? <==> xml != "" && env.parseXml(xml).Some?
    ensures r.Ok? ==> r.value == BuildTask(BranchPrefix(env.stored), env.show, env.ignore,
                                          AllFields(env.parseXml(xml).value.issues))
    ensures r.Ok? ==> StartsWith(r.value.id, BranchPrefix(env.stored))
  {
    var doc := LoadXml(env.parseXml, xml);
    if doc.Err? then Err(doc.fault)
    else Ok(BuildTask(BranchPrefix(env.stored), env.show, env.ignore, AllFields(doc.value.issues)))
  }

  /** BuildTasksFromXML on a response: one task per issue element, or the parser's
      error; an empty response is an error, not an empty list. */
  function TasksFromXml(env: Env, xml: string): (r: Result<seq<Task>>)
    ensures xml == "" ==> r == Err(XmlError)
    ensures r.Ok? <==> xml != "" && env.parseXml(xml).Some?
    ensures r.Ok? ==> |r.value| == |env.parseXml(xml).value.issues|
    ensures r.Ok? ==> forall i :: 0 <= i < |r.value| ==>
              r.value[i] == BuildTask(BranchPrefix(env.stored), env.show, env.ignore, env.parseXml(xml).value.issues[i].fields)
  {
    var doc := LoadXml(env.parseXml, xml);
    if doc.Err? then Err(doc.fault)
    else Ok(BuildTasks(BranchPrefix(env.stored), env.show, env.ignore, doc.value.issues))
  }

  /** GetPlasticTaskFromTaskID: GET the issue; an empty answer leaves a task that carries
      only the requested id, any other answer is read as an issue document. */
  function TaskFromId(env: Env, w: World, id: string): (r: (Result<Task>, World))
    ensures r.1 == Fetch(w, ConfiguredLogin(env.stored), IssueUrl(BaseUrl(env.stored), id), Get).1
    ensures Fetch(w, ConfiguredLogin(env.stored), IssueUrl(BaseUrl(env.stored), id), Get).0 == "" ==>
              r.0 == Ok(BareTask(id))
    ensures var xml := Fetch(w, ConfiguredLogin(env.stored), IssueUrl(BaseUrl(env.stored), id), Get).0;
            xml != "" ==> r.0 == TaskFromXml(env, xml)
    ensures r.0.Ok? ==> r.0.value.id == id || StartsWith(r.0.value.id, BranchPrefix(env.stored))
  {
    var (xml, w1) := Fetch(w, ConfiguredLogin(env.stored), IssueUrl(BaseUrl(env.stored), id), Get);
    if |xml| > 0 then (TaskFromXml(env, xml), w1) else (Ok(BareTask(id)), w1)
  }

  /** LoadSingleTask: no task, and no request, for an empty id. */
  function SingleTask(env: Env, w: World, id: string): (r: (Result<Option<Task>>, World))
    ensures id == "" ==> r == (Ok(None), w)
    ensures id != "" ==> r.0 != Ok(None) && |r.1.net.requestLog| > |w.net.requestLog|
  {
    if id == "" then (Ok(None), w)
    else
      var (task, w1) := TaskFromId(env, w, id);
      (if task.Err? then Err(task.fault) else Ok(Some(task.value)), w1)
  }

  /** For a non-empty id, LoadSingleTask is GetPlasticTaskFromTaskID: the same world after
      it, and its task, present, exactly when that call gives one. */
  lemma SingleTaskLoads(env: Env, w: World, id: string)
    requires id != ""
    ensures SingleTask(env, w, id).1 == TaskFromId(env, w, id).1
    ensures SingleTask(env, w, id).0.Ok? <==> TaskFromId(env, w, id).0.Ok?
    ensures SingleTask(env, w, id).0.Ok? ==> SingleTask(env, w, id).0.value == Some(TaskFromId(env, w, id).0.value)
  {
  }

  /** The tasks present in a LoadSingleTask result. */
  function Present(task: Option<Task>): seq<Task> {
    if task.Some? then [task.value] else []
  }

  /** LoadTasks from the id list's current position: `loaded` holds the tasks kept so
      far; a missing task is skipped and an exception ends the call. */
  function TasksOf(env: Env, w: World, ids: seq<string>, loaded: seq<Task>): (r: (Result<seq<Task>>, World))
    ensures r.0.Ok? ==> |loaded| <= |r.0.value| <= |loaded| + |ids|
    decreases |ids|
  {
    if ids == [] then (Ok(loaded), w)
    else
      var (task, w1) := SingleTask(env, w, ids[0]);
      if task.Err? then (Err(task.fault), w1)
      else TasksOf(env, w1, ids[1..], loaded + Present(task.value))
  }

  /** An empty id changes nothing: LoadTasks behaves as if it were not in the list. */
  lemma {:induction false} TasksOfSkipsEmpty(env: Env, w: World, ids: seq<string>, loaded: seq<Task>, k: nat)
    requires k < |ids| && ids[k] == ""
    ensures TasksOf(env, w, ids, loaded) == TasksOf(env, w, ids[..k] + ids[k + 1..], loaded)
    decreases k
  {
    var dropped := ids[..k] + ids[k + 1..];
    if k == 0 {
      assert dropped == ids[1..];
      assert loaded + Present(None) == loaded;
    } else {
      assert dropped[0] == ids[0];
      assert dropped[1..] == ids[1..][..k - 1] + ids[1..][k..];
      var (task, w1) := SingleTask(env, w, ids[0]);
      if task.Ok? {
        TasksOfSkipsEmpty(env, w1, ids[1..], loaded + Present(task.value), k - 1);
      }
    }
  }

  /** The LoadSingleTask results for the ids, in order, up to the first exception:
      null exactly for an empty id. */
  function LoadEach(env: Env, w: World, ids: seq<string>): (r: (Result<seq<Option<Task>>>, World))
    ensures r.0.Ok? ==> |r.0.value| == |ids|
    ensures r.0.Ok? ==> forall i :: 0 <= i < |ids| ==> (r.0.value[i].None? <==> ids[i] == "")
    decreases |ids|
  {
    if ids == [] then (Ok([]), w)
    else
      var (task, w1) := SingleTask(env, w, ids[0]);
      if task.Err? then (Err(task.fault), w1)
      else
        var (rest, w2) := LoadEach(env, w1, ids[1..]);
        if rest.Err? then (rest, w2)
        else
          var all := [task.value] + rest.value;
          assert forall i :: 1 <= i < |ids| ==> all[i] == rest.value[i - 1] && ids[i] == ids[1..][i - 1];
          (Ok(all), w2)
  }

  /** The tasks present in a list of LoadSingleTask results, in order. */
  function Kept(results: seq<Option<Task>>): (tasks: seq<Task>)
    ensures |tasks| <= |results|
  {
    if results == [] then [] else Present(results[0]) + Kept(results[1..])
  }

  /** LoadTasks fails, and leaves the session, exactly as loading the ids one by one does. */
  lemma {:induction false} TasksOfLoadsEach(env: Env, w: World, ids: seq<string>, loaded: seq<Task>)
    ensures TasksOf(env, w, ids, loaded).1 == LoadEach(env, w, ids).1
    ensures TasksOf(env, w, ids, loaded).0.Ok? <==> LoadEach(env, w, ids).0.Ok?
    decreases |ids|
  {
    if ids != [] {
      var first := SingleTask(env, w, ids[0]);
      LoadStep(env, w, ids, loaded);
      if first.0.Ok? {
        TasksOfLoadsEach(env, first.1, ids[1..], loaded + Present(first.0.value));
      }
    }
  }

  /** LoadTasks keeps the order of the ids: its tasks are those already loaded, followed
      by the task of each non-empty id in turn. */
  lemma {:induction false} TasksOfKeepsOrder(env: Env, w: World, ids: seq<string>, loaded: seq<Task>)
    ensures TasksOf(env, w, ids, loaded).0.Ok? ==>
              LoadEach(env, w, ids).0.Ok?
              && TasksOf(env, w, ids, loaded).0.value == loaded + Kept(LoadEach(env, w, ids).0.value)
    decreases |ids|
  {
    TasksOfLoadsEach(env, w, ids, loaded);
    if ids != [] {
      var first := SingleTask(env, w, ids[0]);
      LoadStep(env, w, ids, loaded);
      if first.0.Ok? {
        var more := loaded + Present(first.0.value);
        TasksOfKeepsOrder(env, first.1, ids[1..], more);
        var rest := LoadEach(env, first.1, ids[1..]).0;
        if rest.Ok? {
          KeptCons(first.0.value, rest.value);
          assert more + Kept(rest.value) == loaded + Kept([first.0.value] + rest.value);
        }
      }
    }
  }

  lemma KeptCons(head: Option<Task>, tail: seq<Option<Task>>)
    ensures Kept([head] + tail) == Present(head) + Kept(tail)
  {
    assert ([head] + tail)[1..] == tail;
  }

  /** One id of LoadTasks, and of loading the ids one by one. */
  lemma LoadStep(env: Env, w: World, ids: seq<string>, loaded: seq<Task>)
    requires ids != []
    ensures var first := SingleTask(env, w, ids[0]);
            TasksOf(env, w, ids, loaded)
            == if first.0.Err? then (Err(first.0.fault), first.1)
               else TasksOf(env, first.1, ids[1..], loaded + Present(first.0.value))
    ensures var first := SingleTask(env, w, ids[0]);
            var rest := LoadEach(env, first.1, ids[1..]);
            LoadEach(env, w, ids)
            == if first.0.Err? then (Err(first.0.fault), first.1)
               else if rest.0.Err? then rest
               else (Ok([first.0.value] + rest.0.value), rest.1)
  {
  }

  /** Every non-empty id yields a task: when no id is empty and nothing fails, there are
      as many tasks as ids. */
  lemma {:induction false} TasksOfKeepsEvery(env: Env, w: World, ids: seq<string>, loaded: seq<Task>)
    requires forall i :: 0 <= i < |ids| ==> ids[i] != ""
    ensures TasksOf(env, w, ids, loaded).0.Ok? ==> |TasksOf(env, w, ids, loaded).0.value| == |loaded| + |ids|
    decreases |ids|
  {
    if ids != [] {
      var (task, w1) := SingleTask(env, w, ids[0]);
      if task.Ok? {
        assert task.value.Some?;
        TasksOfKeepsEvery(env, w1, ids[1..], loaded + Present(task.value));
      }
    }
  }

  /** Every entry of the dictionary is null exactly when its branch yields no task id. */
  predicate EntriesMatchIds(stored: Stored, found: map<string, Option<Task>>) {
    forall name :: name in found ==> (found[name].None? <==> BranchTaskId(stored, name) == "")
  }

  /** GetTasksForBranches from the name list's current position: each task is loaded,
      then added under its full branch name, which throws for a name already present. */
  function TasksForBranches(env: Env, w: World, names: seq<string>, found: map<string, Option<Task>>)
    : (r: (Result<map<string, Option<Task>>>, World))
    ensures r.0.Ok? ==> forall name :: name in r.0.value <==> name in found || name in names
    ensures r.0.Ok? ==> forall name :: name in found ==> r.0.value[name] == found[name]
    decreases |names|
  {
    if names == [] then (Ok(found), w)
    else
      var (task, w1) := SingleTask(env, w, BranchTaskId(env.stored, names[0]));
      if task.Err? then (Err(task.fault), w1)
      else if names[0] in found then (Err(DuplicateKey(names[0])), w1)
      else
        var r := TasksForBranches(env, w1, names[1..], found[names[0] := task.value]);
        r
  }

  /** A branch is entered as null exactly when no task id can be read from its name. */
  lemma {:induction false} BranchEntriesMatchIds(env: Env, w: World, names: seq<string>, found: map<string, Option<Task>>)
    requires EntriesMatchIds(env.stored, found)
    ensures TasksForBranches(env, w, names, found).0.Ok? ==>
              EntriesMatchIds(env.stored, TasksForBranches(env, w, names, found).0.value)
    decreases |names|
  {
    if names != [] {
      var (task, w1) := SingleTask(env, w, BranchTaskId(env.stored, names[0]));
      if task.Ok? && names[0] !in found {
        BranchEntriesMatchIds(env, w1, names[1..], found[names[0] := task.value]);
      }
    }
  }

  /** A branch name that comes twice, or one already present, makes the call fail. */
  lemma {:induction false} RepeatedBranchFails(env: Env, w: World, names: seq<string>, found: map<string, Option<Task>>, k: nat)
    requires k < |names|
    requires names[k] in found || exists i :: 0 <= i < k && names[i] == names[k]
    ensures TasksForBranches(env, w, names, found).0.Err?
    decreases k
  {
    var added, entry, w1 := FirstBranch(env, w, names, found);
    if added {
      RepeatInTail(names, found, entry, k);
      RepeatedBranchFails(env, w1, names[1..], found[names[0] := entry], k - 1);
    }
  }

  /** The first name either makes the call fail or is entered, after which the call goes
      on with the rest of the names from the world its load left. */
  lemma FirstBranch(env: Env, w: World, names: seq<string>, found: map<string, Option<Task>>)
    returns (added: bool, entry: Option<Task>, w1: World)
    requires names != []
    ensures names[0] in found ==> !added
    ensures !added ==> TasksForBranches(env, w, names, found).0.Err?
    ensures added ==> TasksForBranches(env, w, names, found) == TasksForBranches(env, w1, names[1..], found[names[0] := entry])
  {
    TasksForBranchesStep(env, w, names, found);
    var loaded := SingleTask(env, w, BranchTaskId(env.stored, names[0]));
    added := loaded.0.Ok? && names[0] !in found;
    entry := if loaded.0.Ok? then loaded.0.value else None;
    w1 := loaded.1;
  }

  /** One name of GetTasksForBranches: its task is loaded, then it is added or the call fails. */
  lemma TasksForBranchesStep(env: Env, w: World, names: seq<string>, found: map<string, Option<Task>>)
    requires names != []
    ensures var loaded := SingleTask(env, w, BranchTaskId(env.stored, names[0]));
            TasksForBranches(env, w, names, found)
            == if loaded.0.Err? then (Err(loaded.0.fault), loaded.1)
               else if names[0] in found then (Err(DuplicateKey(names[0])), loaded.1)
               else TasksForBranches(env, loaded.1, names[1..], found[names[0] := loaded.0.value])
  {
  }

  /** A repeat at k that is not the first name is, once the first name is entered, a
      repeat at k - 1 of the rest. */
  lemma RepeatInTail(names: seq<string>, found: map<string, Option<Task>>, entry: Option<Task>, k: nat)
    requires k < |names| && names[0] !in found
    requires names[k] in found || exists i :: 0 <= i < k && names[i] == names[k]
    ensures 0 < k
    ensures var found', rest := found[names[0] := entry], names[1..];
            rest[k - 1] in found' || exists i :: 0 <= i < k - 1 && rest[i] == rest[k - 1]
  {
    var found', rest := found[names[0] := entry], names[1..];
    if names[k] !in found {
      var i :| 0 <= i < k && names[i] == names[k];
      if i > 0 {
        assert rest[i - 1] == rest[k - 1];
      }
    }
  }

  /** GetUnresolvedIssues: GET the search URL for the given issue types and read every
      issue of the answer. */
  function UnresolvedIssues(env: Env, w: World, issueTypes: seq<string>, userOnly: bool): (r: (Result<seq<Task>>, World))
    ensures r.1 == Fetch(w, ConfiguredLogin(env.stored),
                         SearchUrl(BaseUrl(env.stored), BranchPrefix(env.stored), issueTypes, userOnly), Get).1
    ensures Fetch(w, ConfiguredLogin(env.stored),
                  SearchUrl(BaseUrl(env.stored), BranchPrefix(env.stored), issueTypes, userOnly), Get).0 == "" ==>
              r.0 == Err(XmlError)
    ensures r.0 == TasksFromXml(env, Fetch(w, ConfiguredLogin(env.stored),
                    SearchUrl(BaseUrl(env.stored), BranchPrefix(env.stored), issueTypes, userOnly), Get).0)
  {
    var url := SearchUrl(BaseUrl(env.stored), BranchPrefix(env.stored), issueTypes, userOnly);
    var (xml, w1) := Fetch(w, ConfiguredLogin(env.stored), url, Get);
    (TasksFromXml(env, xml), w1)
  }

  /** ExecuteOnYoutrack: POST the execute URI; the answer is not looked at. */
  function Execute(env: Env, w: World, taskId: string, command: string, comment: string): (w': World)
    ensures |w'.net.requestLog| > |w.net.requestLog|
  {
    Fetch(w, ConfiguredLogin(env.stored), ExecuteUri(BaseUrl(env.stored), taskId, command, comment), Post).1
  }

  /** The execute calls of LogCheckinResult, one per task in order. */
  function ExecuteAll(env: Env, w: World, tasks: seq<Task>, d: Directive): (w': World)
    ensures |w'.net.requestLog| >= |w.net.requestLog| + |tasks|
    decreases |tasks|
  {
    if tasks == [] then w
    else ExecuteAll(env, Execute(env, w, tasks[0].id, d.command, d.comment), tasks[1..], d)
  }

  /** The POST ExecuteOnYoutrack sends for one task. */
  function ExecuteRequest(baseUrl: string, taskId: string, d: Directive, cookie: Option<string>): Request {
    Request(ExecuteUri(baseUrl, taskId, d.command, d.comment), Post, cookie)
  }

  /** The requests one execute call per task sends when each is answered at once. */
  function ExecuteRequests(baseUrl: string, tasks: seq<Task>, d: Directive, cookie: Option<string>): (rs: seq<Request>)
    ensures |rs| == |tasks|
    ensures forall i :: 0 <= i < |tasks| ==> rs[i] == ExecuteRequest(baseUrl, tasks[i].id, d, cookie)
    decreases |tasks|
  {
    if tasks == [] then []
    else
      var rest := ExecuteRequests(baseUrl, tasks[1..], d, cookie);
      assert forall i :: 1 <= i < |tasks| ==> tasks[i] == tasks[1..][i - 1];
      [ExecuteRequest(baseUrl, tasks[0].id, d, cookie)] + rest
  }

  /** A session is open and the next `n` requests are answered with a body. */
  predicate Answered(w: World, n: nat) {
    w.session.authData.Some? && n <= |w.net.replies|
    && forall i :: 0 <= i < n ==> w.net.replies[i].Body?
  }

  /** One execute call answered at once: one request with the session's cookie, the
      session unchanged and one answer fewer. */
  lemma ExecuteAnswered(env: Env, w: World, taskId: string, d: Directive, n: nat)
    requires Answered(w, n + 1)
    ensures Answered(Execute(env, w, taskId, d.command, d.comment), n)
    ensures Execute(env, w, taskId, d.command, d.comment).session == w.session
    ensures Execute(env, w, taskId, d.command, d.comment).net.requestLog
            == w.net.requestLog + [ExecuteRequest(BaseUrl(env.stored), taskId, d, w.session.authData)]
  {
    var w1 := Execute(env, w, taskId, d.command, d.comment);
    assert w1.net.replies == w.net.replies[1..];
    forall i | 0 <= i < n ensures w1.net.replies[i].Body? {
      assert w1.net.replies[i] == w.net.replies[i + 1];
    }
  }

  lemma AppendOneThenRest<T>(log: seq<T>, first: T, rest: seq<T>)
    ensures (log + [first]) + rest == log + ([first] + rest)
  {
  }

  /** With a session open and every call answered, LogCheckinResult sends exactly one
      execute request per task, in the order of the tasks, even when the command and
      the comment are both empty. */
  lemma {:induction false} ExecuteAllSendsOnePerTask(env: Env, w: World, tasks: seq<Task>, d: Directive)
    requires Answered(w, |tasks|)
    ensures ExecuteAll(env, w, tasks, d).net.requestLog
            == w.net.requestLog + ExecuteRequests(BaseUrl(env.stored), tasks, d, w.session.authData)
    decreases |tasks|
  {
    if tasks != [] {
      var w1 := Execute(env, w, tasks[0].id, d.command, d.comment);
      var first := ExecuteRequest(BaseUrl(env.stored), tasks[0].id, d, w.session.authData);
      var rest := ExecuteRequests(BaseUrl(env.stored), tasks[1..], d, w.session.authData);
      assert ExecuteAll(env, w, tasks, d).net.requestLog == w1.net.requestLog + rest by {
        ExecuteAnswered(env, w, tasks[0].id, d, |tasks| - 1);
        ExecuteAllSendsOnePerTask(env, w1, tasks[1..], d);
      }
      assert w1.net.requestLog == w.net.requestLog + [first] by {
        ExecuteAnswered(env, w, tasks[0].id, d, |tasks| - 1);
      }
      assert ExecuteRequests(BaseUrl(env.stored), tasks, d, w.session.authData) == [first] + rest;
      AppendOneThenRest(w.net.requestLog, first, rest);
    }
  }

  lemma ExecuteAllStep(env: Env, w: World, tasks: seq<Task>, i: nat, d: Directive)
    requires i < |tasks|
    ensures ExecuteAll(env, w, tasks[i..], d)
            == ExecuteAll(env, Execute(env, w, tasks[i].id, d.command, d.comment), tasks[i + 1..], d)
  {
    assert tasks[i..][0] == tasks[i] && tasks[i..][1..] == tasks[i + 1..];
  }

  /** LogCheckinResult: the directive read from the changeset comment, then one execute
      call per task; when String.Replace throws nothing is sent. */
  function Checkin(env: Env, w: World, changeComment: string, tasks: seq<Task>): (r: (Result<Directive>, World))
    ensures r.0 == CheckinDirective(changeComment, SelectorMatch(env.matchRegex, CommandPattern(env.stored), changeComment),
                                    PropagateComments(env.stored))
    ensures r.0.Err? ==> r.1 == w
    ensures r.0.Ok? ==> r.1 == ExecuteAll(env, w, tasks, r.0.value)
    ensures r.0.Ok? && !PropagateComments(env.stored) ==> r.0.value.comment == ""
  {
    var m := SelectorMatch(env.matchRegex, CommandPattern(env.stored), changeComment);
    var d := CheckinDirective(changeComment, m, PropagateComments(env.stored));
    if d.Err? then (d, w) else (d, ExecuteAll(env, w, tasks, d.value))
  }

  /** The extension object: the session fields it updates, its configuration and the
      server it talks to. */
  class YoutrackExtension {
    var authRetryCount: int
    var authData: Option<string>
    const config: YouTrackConfiguration
    const server: TrackerServer
    const parseXml: string -> Option<Document>
    const matchRegex: (string, string) -> Option<CommandMatch>

    /** The session together with the server's script and logs. */
    function State(): World
      reads this, server
    {
      World(Session(authRetryCount, authData), server.Net())
    }

    function Environment(): Env
      reads config`showIssueStateInBranchTitle, config`ignoreIssueStateForBranchTitle
    {
      Env(config.stored, config.showIssueStateInBranchTitle, config.ignoreIssueStateForBranchTitle,
                   parseXml, matchRegex)
    }

    ghost predicate Valid()
      reads config`issueTypes, config`commandSelector
    {
      config.Valid()
    }

    constructor (stored: Stored, server: TrackerServer, parseXml: string -> Option<Document>,
                 matchRegex: (string, string) -> Option<CommandMatch>)
      ensures Valid() && fresh(config)
      ensures this.server == server && State() == World(Session(0, None), server.Net())
      ensures Environment() == Env(stored, true, "", parseXml, matchRegex)
    {
      config := new YouTrackConfiguration(stored);
      this.server := server;
      this.parseXml := parseXml;
      this.matchRegex := matchRegex;
      authRetryCount := 0;
      authData := None;
    }

    method Authenticate(baseUrl: string, user: string, password: string)
      modifies this, server
      ensures State() == YouTrackSession.Authenticate(old(State()), LoginUrl(baseUrl, user, password))
    {
      authRetryCount := authRetryCount + 1;
      var requestUrl := LoginUrl(baseUrl, user, password);
      var result := server.Login(requestUrl);
      if result.LoginAnswer? && result.body == LoginOk {
        authData := result.setCookie;
        authRetryCount := 0;
      }
    }

    method Connect()
      modifies this, server
      ensures State() == YouTrackSession.Authenticate(old(State()), ConfiguredLogin(config.stored))
    {
      Authenticate(BaseUrl(config.stored), User(config.stored), Password(config.stored));
    }

    method ConnectToYoutrack(requestUrl: string, verb: Verb) returns (xml: string)
      modifies this, server
      ensures (xml, State()) == Fetch(old(State()), ConfiguredLogin(config.stored), requestUrl, verb)
      decreases |server.replies|
    {
      ghost var loginUrl := ConfiguredLogin(config.stored);
      assert loginUrl == LoginUrl(BaseUrl(config.stored), User(config.stored), Password(config.stored));
      if authData.None? {
        Connect();
      }
      ghost var w1 := State();
      var reply := server.Send(Request(requestUrl, verb, authData));
      FetchStep(old(State()), loginUrl, requestUrl, verb, w1, reply, State());
      match reply
      case Body(text) =>
        xml := text;
      case Failure(message) =>
        if Contains(message, Unauthorized) && authRetryCount < MaxAuthRetries {
          Authenticate(BaseUrl(config.stored), User(config.stored), Password(config.stored));
          xml := ConnectToYoutrack(requestUrl, verb);
        } else {
          xml := "";
        }
    }

    method TestConnection(configuration: Stored) returns (result: bool)
      modifies this, server
      ensures (result, State())
              == YouTrackSession.TestConnection(old(State()), ConfiguredLogin(configuration), ConfiguredLogin(config.stored))
    {
      ghost var start := State();
      authRetryCount := 0;
      Authenticate(BaseUrl(configuration), User(configuration), Password(configuration));
      ghost var probed := State();
      result := authRetryCount == 0;
      Authenticate(BaseUrl(config.stored), User(config.stored), Password(config.stored));
      assert YouTrackSession.TestConnection(start, ConfiguredLogin(configuration), ConfiguredLogin(config.stored))
             == (probed.session.retryCount == 0, State());
    }

    method BuildTasksFromXML(xml: string) returns (r: Result<seq<Task>>)
      ensures r == TasksFromXml(Environment(), xml)
    {
      var doc := LoadXml(parseXml, xml);
      if doc.Err? {
        return Err(doc.fault);
      }
      var issues := doc.value.issues;
      var result: seq<Task> := [];
      for i := 0 to |issues|
        invariant result == BuildTasks(BranchPrefix(config.stored), config.showIssueStateInBranchTitle,
                                       config.ignoreIssueStateForBranchTitle, issues[..i])
      {
        result := result + [BuildTask(BranchPrefix(config.stored), config.showIssueStateInBranchTitle,
                                      config.ignoreIssueStateForBranchTitle, issues[i].fields)];
      }
      assert issues[..|issues|] == issues;
      r := Ok(result);
    }

    method GetPlasticTaskFromTaskID(taskId: string) returns (r: Result<Task>)
      modifies this, server
      ensures (r, State()) == TaskFromId(Environment(), old(State()), taskId)
    {
      r := Ok(BareTask(taskId));
      var requestUrl := IssueUrl(BaseUrl(config.stored), taskId);
      var xml := ConnectToYoutrack(requestUrl, Get);
      if |xml| > 0 {
        r := TaskFromXml(Environment(), xml);
      }
    }

    method LoadSingleTask(taskId: string) returns (r: Result<Option<Task>>)
      modifies this, server
      ensures (r, State()) == SingleTask(Environment(), old(State()), taskId)
    {
      if taskId == "" {
        return Ok(None);
      }
      var task := GetPlasticTaskFromTaskID(taskId);
      r := if task.Err? then Err(task.fault) else Ok(Some(task.value));
    }

    method GetTaskForBranch(fullBranchName: string) returns (r: Result<Option<Task>>)
      modifies this, server
      ensures (r, State()) == SingleTask(Environment(), old(State()), BranchTaskId(config.stored, fullBranchName))
    {
      r := LoadSingleTask(TaskIdFromBranchName(BranchPrefix(config.stored), BranchName(fullBranchName)));
    }

    method LoadTasks(taskIds: seq<string>) returns (r: Result<seq<Task>>)
      modifies this, server
      ensures (r, State()) == TasksOf(Environment(), old(State()), taskIds, [])
    {
      var result: seq<Task> := [];
      for i := 0 to |taskIds|
        invariant TasksOf(Environment(), old(State()), taskIds, []) == TasksOf(Environment(), State(), taskIds[i..], result)
      {
        assert taskIds[i..][0] == taskIds[i] && taskIds[i..][1..] == taskIds[i + 1..];
        var loadedTask := LoadSingleTask(taskIds[i]);
        if loadedTask.Err? {
          return Err(loadedTask.fault);
        }
        if loadedTask.value.None? {
          assert result + Present(None) == result;
          continue;
        }
        result := result + [loadedTask.value.value];
      }
      r := Ok(result);
    }

    method GetTasksForBranches(fullBranchNames: seq<string>) returns (r: Result<map<string, Option<Task>>>)
      modifies this, server
      ensures (r, State()) == TasksForBranches(Environment(), old(State()), fullBranchNames, map[])
    {
      var result: map<string, Option<Task>> := map[];
      for i := 0 to |fullBranchNames|
        invariant TasksForBranches(Environment(), old(State()), fullBranchNames, map[])
                  == TasksForBranches(Environment(), State(), fullBranchNames[i..], result)
      {
        var name := fullBranchNames[i];
        assert fullBranchNames[i..][0] == name && fullBranchNames[i..][1..] == fullBranchNames[i + 1..];
        var taskId := TaskIdFromBranchName(BranchPrefix(config.stored), BranchName(name));
        var task := LoadSingleTask(taskId);
        if task.Err? {
          return Err(task.fault);
        }
        if name in result {
          return Err(DuplicateKey(name));
        }
        result := result[name := task.value];
      }
      r := Ok(result);
    }

    method GetUnresolvedIssues(userOnly: bool) returns (r: Result<seq<Task>>)
      requires Valid()
      modifies this, server, config`issueTypes
      ensures Valid()
      ensures (r, State()) == UnresolvedIssues(Environment(), old(State()), Tokenize(IssueTypeFilter(config.stored)), userOnly)
    {
      var issueTypes := config.IssueTypes();
      var url := SearchUrl(BaseUrl(config.stored), BranchPrefix(config.stored), issueTypes, userOnly);
      var xml := ConnectToYoutrack(url, Get);
      r := BuildTasksFromXML(xml);
    }

    /** GetPendingTasks(assignee): the assignee's own unresolved issues; the argument is
        not used, the server's "for:me" filter names the logged-in user. */
    method GetPendingTasksOf(assignee: string) returns (r: Result<seq<Task>>)
      requires Valid()
      modifies this, server, config`issueTypes
      ensures Valid()
      ensures (r, State()) == UnresolvedIssues(Environment(), old(State()), Tokenize(IssueTypeFilter(config.stored)), true)
    {
      r := GetUnresolvedIssues(true);
    }

    method GetPendingTasks() returns (r: Result<seq<Task>>)
      requires Valid()
      modifies this, server, config`issueTypes
      ensures Valid()
      ensures (r, State()) == UnresolvedIssues(Environment(), old(State()), Tokenize(IssueTypeFilter(config.stored)), false)
    {
      r := GetUnresolvedIssues(false);
    }

    method ExecuteOnYoutrack(taskId: string, command: string, comment: string)
      modifies this, server
      ensures State() == Execute(Environment(), old(State()), taskId, command, comment)
    {
      var executionStrings: seq<string> := [];
      if command != "" {
        executionStrings := executionStrings + [QueryParameter("command", command)];
      }
      if comment != "" {
        executionStrings := executionStrings + [QueryParameter("comment", comment)];
      }
      assert executionStrings == ExecutionStrings(command, comment);
      var uri := BaseUrl(config.stored) + "/rest/issue/" + taskId + "/execute?" + Join("&", executionStrings);
      var _ := ConnectToYoutrack(uri, Post);
    }

    method LogCheckinResult(changeComment: string, tasks: seq<Task>) returns (r: Result<Directive>)
      requires Valid()
      modifies this, server, config`commandSelector
      ensures Valid()
      ensures (r, State()) == Checkin(Environment(), old(State()), changeComment, tasks)
    {
      ghost var env := Environment();
      ghost var start := State();
      var pattern := config.CommandsSelector();
      var m := SelectorMatch(matchRegex, pattern, changeComment);
      var rest := changeComment;
      var command := "";
      var comment := "";
      if m.Some? {
        if m.value.whole == "" {
          return Err(EmptyOldValue);
        }
        rest := RemoveAll(rest, m.value.whole);
        command := m.value.group;
      }
      if |rest| > 0 && PropagateComments(config.stored) {
        comment := CommentPrefix + rest;
      }
      var d := Directive(command, comment);
      assert Checkin(env, start, changeComment, tasks) == (Ok(d), ExecuteAll(env, start, tasks, d)) by {
        assert CheckinDirective(changeComment, m, PropagateComments(config.stored)) == Ok(d);
      }
      for i := 0 to |tasks|
        invariant Valid() && Environment() == env
        invariant ExecuteAll(env, start, tasks, d) == ExecuteAll(env, State(), tasks[i..], d)
      {
        ExecuteAllStep(env, State(), tasks, i, d);
        ExecuteOnYoutrack(tasks[i].id, command, comment);
      }
      assert tasks[|tasks|..] == [];
      r := Ok(d);
    }

    method MarkTaskAsOpen(taskId: string, assignee: string)
      modifies this, server
      ensures State() == Execute(Environment(), old(State()), taskId, MarkOpenCommand(assignee), "")
    {
      var command := "assignee " + assignee + " state " + "in progress";
      ExecuteOnYoutrack(taskId, command, "");
    }
  }
}
