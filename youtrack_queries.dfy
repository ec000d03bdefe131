/**
 * The texts the YouTrack extension sends: task ids read from branch names,
 * the search URL for unresolved issues, and the login, issue and execute URLs
 * of the YouTrack REST interface.
 */
module YouTrackQueries {
  import opened Outcomes
  import opened Text
  import opened Escaping

  /** GetTaskIdFromBranchName: with a prefix, "" unless the name starts with it and is
      longer; otherwise the name up to its first space, the prefix kept. */
  function TaskIdFromBranchName(prefix: string, branchName: string): (id: string)
    ensures prefix == "" ==> id == branchName
    ensures prefix != "" && (!StartsWith(branchName, prefix) || branchName == prefix) ==> id == ""
    ensures prefix != "" && StartsWith(branchName, prefix) && branchName != prefix ==>
              StartsWith(branchName, id) && ' ' !in id && (|id| < |branchName| ==> branchName[|id|] == ' ')
  {
    if prefix == "" then branchName
    else if !StartsWith(branchName, prefix) || branchName == prefix then ""
    else
      SplitFirst(branchName, ' ');
      Split(branchName, ' ')[0]
  }

  /** A branch named by the prefix and a number without spaces yields both as its id. */
  lemma TaskIdOfPrefixedName(prefix: string, number: string)
    requires prefix != "" && number != ""
    requires ' ' !in prefix && ' ' !in number
    ensures TaskIdFromBranchName(prefix, prefix + number) == prefix + number
  {
    var name := prefix + number;
    assert name[..|prefix|] == prefix;
    assert ' ' !in name by {
      forall i | 0 <= i < |name| ensures name[i] != ' ' {
        if i < |prefix| {
          assert name[i] == prefix[i];
        } else {
          assert name[i] == number[i - |prefix|];
        }
      }
    }
    SplitFirst(name, ' ');
  }

  /** The search filter for one issue type:
      filter={user}%23{type}+%23Unresolved+%23{project}. */
  function FilterTerm(userFilter: string, issueType: string, projectFilter: string): string {
    "filter=" + userFilter + "%23" + issueType + "+%23" + "Unresolved" + "+%23" + projectFilter
  }

  function UserFilter(userOnly: bool): string {
    if userOnly then "for:me+" else ""
  }

  /** The project: the branch prefix without its last character. */
  function ProjectFilter(branchPrefix: string): string
    requires branchPrefix != ""
  {
    branchPrefix[..|branchPrefix| - 1]
  }

  function Filters(branchPrefix: string, issueTypes: seq<string>, userOnly: bool): (filters: seq<string>)
    requires branchPrefix != ""
    ensures |filters| == |issueTypes|
    ensures forall i :: 0 <= i < |issueTypes| ==>
              filters[i] == FilterTerm(UserFilter(userOnly), issueTypes[i], ProjectFilter(branchPrefix))
  {
    seq(|issueTypes|, i requires 0 <= i < |issueTypes| =>
      FilterTerm(UserFilter(userOnly), issueTypes[i], ProjectFilter(branchPrefix)))
  }

  const MaxIssues := "10000"
  const MaxTerm := "max=" + MaxIssues

  /** The query of GetUnresolvedIssues: the filters joined by '&', then the limit. */
  function SearchQuery(branchPrefix: string, issueTypes: seq<string>, userOnly: bool): string
    requires branchPrefix != ""
  {
    Join("&", Filters(branchPrefix, issueTypes, userOnly)) + "&" + MaxTerm
  }

  /** GET {base}/rest/issue?{query}: the search query follows the fixed path. */
  function SearchUrl(baseUrl: string, branchPrefix: string, issueTypes: seq<string>, userOnly: bool): (url: string)
    requires branchPrefix != ""
    ensures StartsWith(url, baseUrl + "/rest/issue?")
    ensures url[|baseUrl + "/rest/issue?"|..] == SearchQuery(branchPrefix, issueTypes, userOnly)
  {
    baseUrl + "/rest/issue?" + SearchQuery(branchPrefix, issueTypes, userOnly)
  }

  lemma FilterTermHasNoAmpersand(userFilter: string, issueType: string, projectFilter: string)
    requires '&' !in userFilter && '&' !in issueType && '&' !in projectFilter
    ensures '&' !in FilterTerm(userFilter, issueType, projectFilter)
  {
  }

  /** Cutting the search query at every '&' gives back one filter per issue type, in
      order, then the limit, when neither the types nor the prefix hold a '&'. */
  lemma {:induction false} SearchQueryTerms(branchPrefix: string, issueTypes: seq<string>, userOnly: bool)
    requires branchPrefix != "" && '&' !in branchPrefix
    requires |issueTypes| >= 1
    requires forall i :: 0 <= i < |issueTypes| ==> '&' !in issueTypes[i]
    ensures Split(SearchQuery(branchPrefix, issueTypes, userOnly), '&')
            == Filters(branchPrefix, issueTypes, userOnly) + [MaxTerm]
  {
    var filters := Filters(branchPrefix, issueTypes, userOnly);
    var terms := filters + [MaxTerm];
    var project := ProjectFilter(branchPrefix);
    assert '&' !in project by {
      forall i | 0 <= i < |project| ensures project[i] != '&' {
        assert project[i] == branchPrefix[i];
      }
    }
    forall i | 0 <= i < |terms| ensures '&' !in terms[i] {
      if i < |filters| {
        FilterTermHasNoAmpersand(UserFilter(userOnly), issueTypes[i], project);
      }
    }
    JoinSnoc(filters, MaxTerm, "&");
    assert "&" == ['&'];
    SplitJoin(terms, '&');
  }

  /** GET {base}/rest/issue/{id}. */
  function IssueUrl(baseUrl: string, taskId: string): (url: string)
    ensures StartsWith(url, baseUrl + "/rest/issue/") && url[|baseUrl + "/rest/issue/"|..] == taskId
  {
    baseUrl + "/rest/issue/" + taskId
  }

  /** POST {base}/rest/user/login?login={user}&password={password}; neither part is escaped. */
  function LoginUrl(baseUrl: string, user: string, password: string): (url: string)
    ensures StartsWith(url, baseUrl + "/rest/user/login?")
    ensures '&' !in user && '&' !in password ==>
              Split(url[|baseUrl + "/rest/user/login?"|..], '&') == ["login=" + user, "password=" + password]
  {
    var path := baseUrl + "/rest/user/login?";
    var query := "login=" + user + "&password=" + password;
    var url := path + query;
    assert url[..|path|] == path && url[|path|..] == query;
    if '&' !in user && '&' !in password then
      LoginQueryParts(user, password);
      url
    else url
  }

  /** The login query cuts at '&' into its two parameters when neither value holds one. */
  lemma LoginQueryParts(user: string, password: string)
    requires '&' !in user && '&' !in password
    ensures Split("login=" + user + "&password=" + password, '&') == ["login=" + user, "password=" + password]
  {
    var parts := ["login=" + user, "password=" + password];
    assert '&' !in "login=" && '&' !in "password=";
    assert Join(['&'], parts) == "login=" + user + "&password=" + password;
    SplitJoin(parts, '&');
  }

  /** Neither part is escaped: a user name holding '&' splits the login query into more
      than the two parameters. */
  lemma LoginUrlUnescaped(baseUrl: string, password: string)
    ensures |Split(LoginUrl(baseUrl, "a&b", password)[|baseUrl + "/rest/user/login?"|..], '&')| >= 3
  {
    var query := LoginUrl(baseUrl, "a&b", password)[|baseUrl + "/rest/user/login?"|..];
    assert query == "login=a&b&password=" + password;
    IndexOfAt(query, '&', 7);
    SplitRest(query, '&');
    var rest := Split(query, '&')[1..];
    assert Join(['&'], rest) == query[8..] && query[8..][1] == '&';
  }

  /** A query parameter "name=value" with the value percent-encoded. */
  function QueryParameter(name: string, value: string): string {
    name + "=" + EscapeDataString(value)
  }

  /** The parameters ExecuteOnYoutrack sends: the command before the comment, each
      only when it is not empty, each percent-encoded. */
  function ExecutionStrings(command: string, comment: string): (parts: seq<string>)
    ensures |parts| == (if command != "" then 1 else 0) + (if comment != "" then 1 else 0)
    ensures command != "" ==> parts[0] == QueryParameter("command", command)
    ensures comment != "" ==> parts[|parts| - 1] == QueryParameter("comment", comment)
  {
    (if command != "" then [QueryParameter("command", command)] else [])
    + (if comment != "" then [QueryParameter("comment", comment)] else [])
  }

  function ExecuteQuery(command: string, comment: string): string {
    Join("&", ExecutionStrings(command, comment))
  }

  /** POST {base}/rest/issue/{id}/execute?{parameters}. */
  function ExecuteUri(baseUrl: string, taskId: string, command: string, comment: string): (uri: string)
    ensures StartsWith(uri, IssueUrl(baseUrl, taskId) + "/execute?")
    ensures uri[|IssueUrl(baseUrl, taskId) + "/execute?"|..] == ExecuteQuery(command, comment)
  {
    baseUrl + "/rest/issue/" + taskId + "/execute?" + ExecuteQuery(command, comment)
  }

  /** The octets a "name=value" query parameter carries, when it is that parameter. */
  function DecodeParameter(part: string, name: string): Option<seq<Byte>> {
    if StartsWith(part, name + "=") then Unescape(part[|name| + 1..]) else None
  }

  /** A parameter written with an escaped value decodes to the value's UTF-8 octets. */
  lemma DecodeEscaped(name: string, value: string)
    ensures DecodeParameter(QueryParameter(name, value), name) == Some(Utf8String(value))
  {
    var part := QueryParameter(name, value);
    assert part[..|name + "="|] == name + "=";
    assert part[|name| + 1..] == EscapeDataString(value);
    UnescapeEscapeDataString(value);
  }

  /** An escaped value holds no '&', so a parameter whose name holds none holds none. */
  lemma EscapedParameterHasNoAmpersand(name: string, value: string)
    requires '&' !in name
    ensures '&' !in QueryParameter(name, value)
  {
    var e := EscapeDataString(value);
    forall i | 0 <= i < |e| ensures e[i] != '&' {
      assert Unreserved(e[i]) || e[i] == '%';
    }
    assert '&' !in "=";
  }

  /** Cutting the execute query at every '&' gives back its parameters. */
  lemma ExecuteQuerySplit(command: string, comment: string)
    ensures ExecutionStrings(command, comment) != [] ==>
              Split(ExecuteQuery(command, comment), '&') == ExecutionStrings(command, comment)
  {
    var parts := ExecutionStrings(command, comment);
    if parts != [] {
      assert forall i :: 0 <= i < |parts| ==> '&' !in parts[i] by {
        EscapedParameterHasNoAmpersand("command", command);
        EscapedParameterHasNoAmpersand("comment", comment);
      }
      assert "&" == ['&'];
      SplitJoin(parts, '&');
    }
  }

  /** The execute query has two parameters when both the command and the comment are
      given, and one otherwise (an empty query still splits into one empty piece). */
  lemma ExecuteQueryCount(command: string, comment: string)
    ensures |Split(ExecuteQuery(command, comment), '&')| == if command != "" && comment != "" then 2 else 1
  {
    if command == "" && comment == "" {
      assert ExecuteQuery(command, comment) == "";
    } else {
      ExecuteQuerySplit(command, comment);
    }
  }

  /** Its first parameter carries the command's UTF-8 octets when there is a command. */
  lemma ExecuteQueryCommand(command: string, comment: string)
    requires command != ""
    ensures DecodeParameter(Split(ExecuteQuery(command, comment), '&')[0], "command") == Some(Utf8String(command))
  {
    ExecuteQuerySplit(command, comment);
    DecodeEscaped("command", command);
  }

  /** Its last parameter carries the comment's UTF-8 octets when there is a comment. */
  lemma ExecuteQueryComment(command: string, comment: string)
    requires comment != ""
    ensures var parts := Split(ExecuteQuery(command, comment), '&');
            DecodeParameter(parts[|parts| - 1], "comment") == Some(Utf8String(comment))
  {
    ExecuteQuerySplit(command, comment);
    DecodeEscaped("comment", comment);
  }

  /** The execute query decodes back to the command and the comment: cut at '&', the
      first parameter carries the command's UTF-8 octets when there is a command and the
      last carries the comment's when there is a comment. */
  lemma ExecuteQueryDecodes(command: string, comment: string)
    ensures |Split(ExecuteQuery(command, comment), '&')| == if command != "" && comment != "" then 2 else 1
    ensures command != "" ==>
              DecodeParameter(Split(ExecuteQuery(command, comment), '&')[0], "command") == Some(Utf8String(command))
    ensures comment != "" ==>
              var parts := Split(ExecuteQuery(command, comment), '&');
              DecodeParameter(parts[|parts| - 1], "comment") == Some(Utf8String(comment))
  {
    ExecuteQueryCount(command, comment);
    if command != "" {
      ExecuteQueryCommand(command, comment);
    }
    if comment != "" {
      ExecuteQueryComment(command, comment);
    }
  }

  /** MarkTaskAsOpen's command: "assignee {assignee} state in progress". */
  function MarkOpenCommand(assignee: string): (command: string)
    ensures ' ' !in assignee ==> Split(command, ' ') == ["assignee", assignee, "state", "in", "progress"]
  {
    var command := "assignee " + assignee + " state " + "in progress";
    if ' ' !in assignee then
      MarkOpenWords(assignee);
      command
    else command
  }

  /** The words of the command, joined by single spaces. */
  lemma MarkOpenWords(assignee: string)
    requires ' ' !in assignee
    ensures Split("assignee " + assignee + " state " + "in progress", ' ') == ["assignee", assignee, "state", "in", "progress"]
  {
    var words := ["assignee", assignee, "state", "in", "progress"];
    var sep := [' '];
    var last := Join(sep, words[3..]);
    assert last == "in progress" by {
      JoinCons("in", ["progress"], sep);
      assert words[3..] == ["in"] + ["progress"];
    }
    var middle := Join(sep, words[2..]);
    assert middle == "state" + sep + last by {
      JoinCons("state", words[3..], sep);
      assert words[2..] == ["state"] + words[3..];
    }
    var all := Join(sep, words);
    assert all == "assignee" + sep + (assignee + sep + middle) by {
      JoinCons("assignee", words[1..], sep);
      JoinCons(assignee, words[2..], sep);
      assert words == ["assignee"] + words[1..];
      assert words[1..] == [assignee] + words[2..];
    }
    assert all == "assignee " + assignee + " state " + "in progress";
    SplitJoin(words, ' ');
  }
}
