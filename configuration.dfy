/**
 * The YouTrack extension's configuration resolver: typed, defaulted settings
 * read from the host's key/value store, the issue-type tokenizer, and the
 * nine-parameter listing the host shows in its configuration dialog.
 */
module Configuration {
  import opened Outcomes
  import opened Text
  import opened Numbers
  import opened HostTypes

  const HostKey := "Host"
  const HostDefault := "myYoutrackHost/youtrack"
  const UseSslKey := "Use SSL"
  const UseSslDefault := "False"
  const PortNumberKey := "Port"
  const PortNumberDefault := ""
  const UserKey := "User ID"
  const UserDefault := "username"
  const PasswordKey := "Password"
  const PasswordDefault := "password"
  const BranchPrefixKey := "Branch prefix"
  const BranchPrefixDefault := "yt-"
  const IssueTypeKey := "Branch issue type filter"
  const IssueTypeDefault := "Feature Bug Task Cosmetics {Meta Issue} {Performance Problem} {Usability Problem}"
  const PropagateCommentsKey := "Add checkin comments to youtrack task"
  const PropagateCommentsDefault := "True"
  const CommandsViaCommentsKey := "Regex selector for youtrack (match 1 will be used for selection)"
  const CommandsViaCommentsDefault := "{{(.*)}}"

  /** A named setting with its default and the kind the configuration dialog shows. */
  datatype Setting = Setting(key: string, default: string, kind: ParameterType)

  const HostSetting := Setting(HostKey, HostDefault, HostType)
  const PortNumberSetting := Setting(PortNumberKey, PortNumberDefault, TextType)
  const UserSetting := Setting(UserKey, UserDefault, UserType)
  const PasswordSetting := Setting(PasswordKey, PasswordDefault, TextType)
  const BranchPrefixSetting := Setting(BranchPrefixKey, BranchPrefixDefault, TextType)
  const PropagateCommentsSetting := Setting(PropagateCommentsKey, PropagateCommentsDefault, BooleanType)
  const UseSslSetting := Setting(UseSslKey, UseSslDefault, BooleanType)
  const IssueTypeSetting := Setting(IssueTypeKey, IssueTypeDefault, TextType)
  const CommandsViaCommentsSetting := Setting(CommandsViaCommentsKey, CommandsViaCommentsDefault, TextType)

  /** The nine settings, in the order of the configuration listing. */
  const ListedSettings: seq<Setting> := [
    HostSetting, PortNumberSetting, UserSetting, PasswordSetting, BranchPrefixSetting,
    PropagateCommentsSetting, UseSslSetting, IssueTypeSetting, CommandsViaCommentsSetting
  ]

  /** The store the extension was created with; None is a null configuration. */
  type Stored = Option<TrackerConfiguration>

  /** The stored value of a setting, or its default when the store is null or the
      value is null or empty; a stored value is returned as it is, untrimmed. */
  function GetValidParameterValue(config: Stored, name: string, default: string): (r: string)
    ensures config.None? ==> r == default
    ensures config.Some? && GetValue(config.value, name).None? ==> r == default
    ensures config.Some? && GetValue(config.value, name) == Some("") ==> r == default
    ensures config.Some? && GetValue(config.value, name).Some? && GetValue(config.value, name).value != ""
            ==> r == GetValue(config.value, name).value
    ensures default != "" ==> r != ""
  {
    var configValue := if config.Some? then GetValue(config.value, name) else None;
    if configValue.None? || configValue.value == "" then default else configValue.value
  }

  function Resolved(config: Stored, s: Setting): string {
    GetValidParameterValue(config, s.key, s.default)
  }

  /** The user name: the stored "User ID", or "username" when it is unset; never empty. */
  function User(config: Stored): (user: string)
    ensures user != ""
    ensures Unset(config, UserKey) ==> user == UserDefault
    ensures !Unset(config, UserKey) ==> user == GetValue(config.value, UserKey).value
  {
    GetValidParameterValue(config, UserKey, UserDefault)
  }

  /** The password: the stored "Password", or "password" when it is unset; never empty. */
  function Password(config: Stored): (password: string)
    ensures password != ""
    ensures Unset(config, PasswordKey) ==> password == PasswordDefault
    ensures !Unset(config, PasswordKey) ==> password == GetValue(config.value, PasswordKey).value
  {
    GetValidParameterValue(config, PasswordKey, PasswordDefault)
  }

  /** SSL is on unless the resolved value is exactly "False": an absent value means off,
      and any other spelling ("false", "no", "FALSE") means on. */
  function UseSsl(config: Stored): (on: bool)
    ensures on <==> GetValidParameterValue(config, UseSslKey, UseSslDefault) != "False"
    ensures config.None? ==> !on
  {
    GetValidParameterValue(config, UseSslKey, UseSslDefault) != UseSslDefault
  }

  /** The port: the stored text when Int32.TryParse accepts it, else 443 with SSL and 80 without. */
  function Port(config: Stored): (port: int)
    ensures Int32Min <= port <= Int32Max
    ensures TryParseInt32(GetValidParameterValue(config, PortNumberKey, PortNumberDefault)).Some?
            ==> port == TryParseInt32(GetValidParameterValue(config, PortNumberKey, PortNumberDefault)).value
    ensures TryParseInt32(GetValidParameterValue(config, PortNumberKey, PortNumberDefault)).None?
            ==> port == if UseSsl(config) then 443 else 80
  {
    var parsed := TryParseInt32(GetValidParameterValue(config, PortNumberKey, PortNumberDefault));
    if parsed.Some? then parsed.value else if UseSsl(config) then 443 else 80
  }

  /** "https" exactly when SSL is on, otherwise "http". */
  function Protocol(config: Stored): (protocol: string)
    ensures protocol == "https" <==> UseSsl(config)
    ensures protocol == "http" <==> !UseSsl(config)
  {
    if UseSsl(config) then "https" else "http"
  }

  function HostValue(config: Stored): string {
    GetValidParameterValue(config, HostKey, HostDefault)
  }

  /** The host name in a Host value: the value cut at its first '/' and then at its
      first ':', so its longest prefix holding neither; a ":port" written in it is
      discarded. */
  function HostName(v: string): (host: string)
    ensures StartsWith(v, host)
    ensures '/' !in host && ':' !in host
    ensures |host| < |v| ==> v[|host|] in {'/', ':'}
  {
    SplitFirst(v, '/');
    var beforeSlash := Split(v, '/')[0];
    SplitFirst(beforeSlash, ':');
    Split(beforeSlash, ':')[0]
  }

  /** The path in a Host value: "" when it has no '/', else everything from its first
      '/' on. */
  function PathOf(v: string): (path: string)
    ensures '/' !in v ==> path == ""
    ensures '/' in v ==> path == v[IndexOf(v, '/')..]
  {
    var pathParts := Split(v, '/')[1..];
    if |pathParts| > 0 then
      SplitRest(v, '/');
      "/" + Join("/", pathParts)
    else ""
  }

  /** When a Host value names no port, its host name and its path together give it back. */
  lemma HostNameAndPathRebuild(v: string)
    requires ':' !in Split(v, '/')[0]
    ensures HostName(v) + PathOf(v) == v
  {
    SplitFirst(v, '/');
    if '/' in v {
      var k := IndexOf(v, '/');
      SplitFirst(v[..k], ':');
      assert v == v[..k] + v[k..];
    } else {
      SplitFirst(v, ':');
    }
  }

  /** The host name of the Host setting: its start, with neither '/' nor ':'. */
  function Host(config: Stored): (host: string)
    ensures StartsWith(HostValue(config), host) && '/' !in host && ':' !in host
    ensures |host| < |HostValue(config)| ==> HostValue(config)[|host|] in {'/', ':'}
  {
    HostName(HostValue(config))
  }

  /** The subfolder of the Host setting: "" or a path from its first '/' on. */
  function Subfolder(config: Stored): (path: string)
    ensures path == "" || path[0] == '/'
    ensures '/' !in HostValue(config) ==> path == ""
    ensures '/' in HostValue(config) ==> path == HostValue(config)[IndexOf(HostValue(config), '/')..]
  {
    PathOf(HostValue(config))
  }

  /** {protocol}://{host}:{port}{subfolder}: the scheme, then the host name followed by ':'. */
  function BaseUrl(config: Stored): (url: string)
    ensures StartsWith(url, Protocol(config) + "://")
    ensures StartsWith(url[|Protocol(config) + "://"|..], Host(config) + ":")
  {
    var url := Protocol(config) + "://" + Host(config) + ":" + IntToString(Port(config)) + Subfolder(config);
    ConcatPrefixes(Protocol(config), "://", Host(config), ":", IntToString(Port(config)), Subfolder(config));
    url
  }

  /** In a + b + c + d + e + f, a + b comes first and c + d follows it. */
  lemma ConcatPrefixes(a: string, b: string, c: string, d: string, e: string, f: string)
    ensures StartsWith(a + b + c + d + e + f, a + b)
    ensures StartsWith((a + b + c + d + e + f)[|a + b|..], c + d)
  {
    var u := a + b + c + d + e + f;
    assert u == (a + b) + ((c + d) + (e + f));
    assert u[|a + b|..] == (c + d) + (e + f);
  }

  /** After "protocol://host:" the base URL holds the port's digits and then the subfolder. */
  lemma BaseUrlTail(config: Stored)
    ensures BaseUrl(config)[|Protocol(config) + "://" + Host(config) + ":"|..] == IntToString(Port(config)) + Subfolder(config)
  {
    ConcatTail(Protocol(config), "://", Host(config), ":", IntToString(Port(config)), Subfolder(config));
  }

  /** In a + b + c + d + e + f, what follows a + b + c + d is e + f. */
  lemma ConcatTail(a: string, b: string, c: string, d: string, e: string, f: string)
    ensures (a + b + c + d + e + f)[|a + b + c + d|..] == e + f
  {
    assert a + b + c + d + e + f == (a + b + c + d) + (e + f);
  }

  /** The host name is read back from the base URL as the text between "://" and the
      first ':' after it. */
  lemma BaseUrlHost(config: Stored)
    ensures Split(BaseUrl(config)[|Protocol(config) + "://"|..], ':')[0] == Host(config)
  {
    FirstPieceBeforeColon(BaseUrl(config)[|Protocol(config) + "://"|..], Host(config));
  }

  /** A text that starts with a colon-free host and then ':' splits at ':' into that host first. */
  lemma FirstPieceBeforeColon(rest: string, host: string)
    requires StartsWith(rest, host + ":") && ':' !in host
    ensures Split(rest, ':')[0] == host
  {
    assert rest[..|host|] == (host + ":")[..|host|] == host;
    assert rest[|host|] == (host + ":")[|host|] == ':';
    IndexOfAt(rest, ':', |host|);
    SplitFirst(rest, ':');
  }

  /** A Host value whose first '/' comes at k with no ':' before it splits there. */
  lemma HostParts(v: string, k: nat)
    requires k < |v| && v[k] == '/' && '/' !in v[..k] && ':' !in v[..k]
    ensures HostName(v) == v[..k]
    ensures PathOf(v) == v[k..]
  {
    IndexOfAt(v, '/', k);
    SplitFirst(v, '/');
    SplitFirst(v[..k], ':');
  }

  /** A setting the store leaves unset: no store, no such parameter, or an empty value. */
  predicate Unset(config: Stored, key: string) {
    config.None? || GetValue(config.value, key).None? || GetValue(config.value, key) == Some("")
  }

  /** With Host, Port and Use SSL unset, the base URL is "http://myYoutrackHost:80/youtrack". */
  lemma BaseUrlWhenUnset(config: Stored)
    requires Unset(config, HostKey) && Unset(config, PortNumberKey) && Unset(config, UseSslKey)
    ensures BaseUrl(config) == "http://myYoutrackHost:80/youtrack"
  {
    assert IntToString(80) == "80";
    var v := HostValue(config);
    assert v == HostDefault;
    assert v[..14] == "myYoutrackHost";
    assert v[14..] == "/youtrack";
    HostParts(v, 14);
    assert TryParseInt32(GetValidParameterValue(config, PortNumberKey, PortNumberDefault)) == None;
    assert Port(config) == 80;
    assert Protocol(config) == "http";
    assert BaseUrl(config) == "http" + "://" + "myYoutrackHost" + ":" + "80" + "/youtrack";
    DefaultUrlText();
  }

  lemma DefaultUrlText()
    ensures "http" + "://" + "myYoutrackHost" + ":" + "80" + "/youtrack" == "http://myYoutrackHost:80/youtrack"
  {
  }

  /** The branch prefix, never empty: it falls back to "yt-". */
  function BranchPrefix(config: Stored): (prefix: string)
    ensures prefix != ""
    ensures Unset(config, BranchPrefixKey) ==> prefix == BranchPrefixDefault
    ensures !Unset(config, BranchPrefixKey) ==> prefix == GetValue(config.value, BranchPrefixKey).value
  {
    GetValidParameterValue(config, BranchPrefixKey, BranchPrefixDefault)
  }

  /** Comments are propagated exactly when the resolved value is "True", case-sensitively. */
  function PropagateComments(config: Stored): (on: bool)
    ensures on <==> GetValidParameterValue(config, PropagateCommentsKey, PropagateCommentsDefault) == "True"
    ensures config.None? ==> on
  {
    GetValidParameterValue(config, PropagateCommentsKey, PropagateCommentsDefault) == PropagateCommentsDefault
  }

  function IssueTypeFilter(config: Stored): string {
    GetValidParameterValue(config, IssueTypeKey, IssueTypeDefault)
  }

  function CommandPattern(config: Stored): string {
    GetValidParameterValue(config, CommandsViaCommentsKey, CommandsViaCommentsDefault)
  }

  /** A null store or the mode None become TaskOnBranch; any other mode is kept. */
  function GetWorkingMode(config: Stored): (mode: WorkingMode)
    ensures mode != ModeNone
    ensures config.None? ==> mode == TaskOnBranch
    ensures config.Some? && config.value.workingMode == ModeNone ==> mode == TaskOnBranch
    ensures config.Some? && config.value.workingMode != ModeNone ==> mode == config.value.workingMode
  {
    if config.None? then TaskOnBranch
    else if config.value.workingMode == ModeNone then TaskOnBranch
    else config.value.workingMode
  }

  // ---------------------------------------------------------------------------
  // The issue-type tokenizer: the matches of (?:{(.*?)}|(\S+)), each kept whole.

  /** A token of the first alternative: '{', then no '}' and no line break, then '}'. */
  predicate IsBraceToken(t: string) {
    |t| >= 2 && t[0] == '{' && t[|t| - 1] == '}' && '}' !in t[1..|t| - 1] && '\n' !in t[1..|t| - 1]
  }

  /** A token of the second alternative: a run of non-white-space characters. */
  predicate IsWord(t: string) {
    t != [] && forall i :: 0 <= i < |t| ==> !IsWhiteSpace(t[i])
  }

  /** Where `{(.*?)}` ends when tried at the start of s: the first '}' after the
      brace, provided no line break comes before it; -1 when it fails. */
  function BraceEnd(s: string): (k: int)
    requires s != [] && s[0] == '{'
    ensures k == -1 || (1 <= k < |s| && IsBraceToken(s[..k + 1]))
    ensures k == -1 ==> forall j :: 1 <= j < |s| && s[j] == '}' ==> '}' in s[1..j] || '\n' in s[1..j]
  {
    var j := IndexOf(s[1..], '}');
    if j < 0 then
      assert forall m :: 1 <= m < |s| ==> s[m] == s[1..][m - 1];
      -1
    else
      assert s[1..][..j] == s[1..j + 1];
      if '\n' in s[1..j + 1] then
        assert forall m :: j + 1 < m < |s| ==> s[1..j + 1] <= s[1..m];
        assert forall m :: 1 <= m < j + 1 ==> s[m] == s[1..j + 1][m - 1];
        -1
      else
        var t := s[..j + 2];
        assert t[0] == '{' && t[|t| - 1] == '}' && t[1..|t| - 1] == s[1..j + 1];
        j + 1
  }

  /** The length of the run of non-white-space characters `\S+` takes from the start of s. */
  function WordLength(s: string): (n: nat)
    ensures n <= |s|
    ensures forall i :: 0 <= i < n ==> !IsWhiteSpace(s[i])
    ensures n < |s| ==> IsWhiteSpace(s[n])
    decreases |s|
  {
    if s == [] || IsWhiteSpace(s[0]) then 0 else 1 + WordLength(s[1..])
  }

  /** Regex.Matches for (?:{(.*?)}|(\S+)), each match's Value: at each position the
      brace alternative is tried first, then the word alternative; a white-space
      character that starts neither is skipped. */
  function Tokenize(s: string): (tokens: seq<string>)
    ensures forall i :: 0 <= i < |tokens| ==> IsBraceToken(tokens[i]) || IsWord(tokens[i])
    decreases |s|
  {
    if s == [] then []
    else if s[0] == '{' && BraceEnd(s) > 0 then
      [s[..BraceEnd(s) + 1]] + Tokenize(s[BraceEnd(s) + 1..])
    else if IsWhiteSpace(s[0]) then Tokenize(s[1..])
    else
      var n := WordLength(s);
      [s[..n]] + Tokenize(s[n..])
  }

  /** A token that comes back as itself when followed by a space: a brace token, or
      a word that does not start with '{'. */
  predicate Separable(t: string) {
    IsBraceToken(t) || (IsWord(t) && t[0] != '{')
  }

  lemma TokenizeLeading(t: string, rest: string)
    requires Separable(t)
    requires rest == [] || rest[0] == ' '
    ensures Tokenize(t + rest) == [t] + Tokenize(rest)
  {
    var s := t + rest;
    assert s[..|t|] == t && s[|t|..] == rest;
    if IsBraceToken(t) {
      assert s[1..][|t| - 2] == '}';
      assert s[1..][..|t| - 2] == t[1..|t| - 1];
      IndexOfAt(s[1..], '}', |t| - 2);
      assert s[1..|t| - 1] == t[1..|t| - 1];
      assert BraceEnd(s) == |t| - 1;
    } else {
      assert |t| < |s| ==> s[|t|] == ' ';
      assert WordLength(s) == |t|;
    }
  }

  /** Separable tokens joined by single spaces tokenize back to themselves. */
  lemma {:induction false} TokenizeJoin(ts: seq<string>)
    requires forall i :: 0 <= i < |ts| ==> Separable(ts[i])
    ensures Tokenize(Join(" ", ts)) == ts
    decreases |ts|
  {
    if |ts| == 1 {
      TokenizeLeading(ts[0], "");
      assert ts[0] + "" == ts[0];
    } else if |ts| > 1 {
      var tail := Join(" ", ts[1..]);
      TokenizeLeading(ts[0], " " + tail);
      assert Tokenize(" " + tail) == Tokenize(tail) by {
        assert (" " + tail)[1..] == tail;
      }
      TokenizeJoin(ts[1..]);
      assert Join(" ", ts) == ts[0] + (" " + tail);
    }
  }

  const DefaultIssueTypes: seq<string> := [
    "Feature", "Bug", "Task", "Cosmetics", "{Meta Issue}", "{Performance Problem}", "{Usability Problem}"
  ]

  lemma JoinStep(ts: seq<string>, k: nat, before: string, after: string)
    requires 1 <= k < |ts| && Join(" ", ts[..k]) == before && after == before + " " + ts[k]
    ensures Join(" ", ts[..k + 1]) == after
  {
    JoinSnoc(ts[..k], ts[k], " ");
    assert ts[..k + 1] == ts[..k] + [ts[k]];
  }

  lemma FilterPrefixBug()
    ensures "Feature" + " " + "Bug" == "Feature Bug"
  {
  }

  lemma FilterPrefixTask()
    ensures "Feature Bug" + " " + "Task" == "Feature Bug Task"
  {
  }

  lemma FilterPrefixCosmetics()
    ensures "Feature Bug Task" + " " + "Cosmetics" == "Feature Bug Task Cosmetics"
  {
  }

  lemma FilterPrefixMeta()
    ensures "Feature Bug Task Cosmetics" + " " + "{Meta Issue}" == "Feature Bug Task Cosmetics {Meta Issue}"
  {
  }

  lemma FilterPrefixPerformance()
    ensures "Feature Bug Task Cosmetics {Meta Issue}" + " " + "{Performance Problem}" == "Feature Bug Task Cosmetics {Meta Issue} {Performance Problem}"
  {
  }

  lemma FilterPrefixUsability()
    ensures "Feature Bug Task Cosmetics {Meta Issue} {Performance Problem}" + " " + "{Usability Problem}" == "Feature Bug Task Cosmetics {Meta Issue} {Performance Problem} {Usability Problem}"
  {
  }

  /** The default filter is the seven default issue types separated by spaces. */
  lemma DefaultFilterJoin(ts: seq<string>)
    requires ts == DefaultIssueTypes
    ensures Join(" ", ts) == IssueTypeDefault
  {
    FilterPrefixBug();
    FilterPrefixTask();
    FilterPrefixCosmetics();
    FilterPrefixMeta();
    FilterPrefixPerformance();
    FilterPrefixUsability();
    assert Join(" ", ts[..1]) == "Feature";
    JoinStep(ts, 1, "Feature", "Feature Bug");
    JoinStep(ts, 2, "Feature Bug", "Feature Bug Task");
    JoinStep(ts, 3, "Feature Bug Task", "Feature Bug Task Cosmetics");
    JoinStep(ts, 4, "Feature Bug Task Cosmetics", "Feature Bug Task Cosmetics {Meta Issue}");
    JoinStep(ts, 5, "Feature Bug Task Cosmetics {Meta Issue}", "Feature Bug Task Cosmetics {Meta Issue} {Performance Problem}");
    JoinStep(ts, 6, "Feature Bug Task Cosmetics {Meta Issue} {Performance Problem}", "Feature Bug Task Cosmetics {Meta Issue} {Performance Problem} {Usability Problem}");
    assert ts[..7] == ts;
  }

  lemma MetaIssueSeparable()
    ensures Separable("{Meta Issue}")
  {
    assert "{Meta Issue}"[1..11] == "Meta Issue";
  }

  lemma PerformanceProblemSeparable()
    ensures Separable("{Performance Problem}")
  {
    assert "{Performance Problem}"[1..20] == "Performance Problem";
  }

  lemma UsabilityProblemSeparable()
    ensures Separable("{Usability Problem}")
  {
    assert "{Usability Problem}"[1..18] == "Usability Problem";
  }

  lemma DefaultIssueTypesSeparable(ts: seq<string>)
    requires ts == DefaultIssueTypes
    ensures forall i :: 0 <= i < |ts| ==> Separable(ts[i])
  {
    assert Separable(ts[0]) && Separable(ts[1]) && Separable(ts[2]) && Separable(ts[3]);
    MetaIssueSeparable();
    PerformanceProblemSeparable();
    UsabilityProblemSeparable();
  }

  /** An unset filter yields seven issue types, the three with spaces keeping their braces. */
  lemma DefaultIssueTypesTokens(config: Stored)
    requires Unset(config, IssueTypeKey)
    ensures Tokenize(IssueTypeFilter(config)) == DefaultIssueTypes
  {
    var ts := DefaultIssueTypes;
    DefaultIssueTypesSeparable(ts);
    DefaultFilterJoin(ts);
    TokenizeJoin(ts);
  }

  // ---------------------------------------------------------------------------
  // The configuration listing.

  /** The parameter that lists a setting with its resolved value; none is global. */
  function ListedParameter(config: Stored, s: Setting): Parameter {
    Parameter(s.key, Resolved(config, s), s.kind, false)
  }

  /** The listing: the nine settings in listing order, each with its resolved value. */
  function Listing(config: Stored): TrackerConfiguration {
    TrackerConfiguration(GetWorkingMode(config), [
      ListedParameter(config, HostSetting),
      ListedParameter(config, PortNumberSetting),
      ListedParameter(config, UserSetting),
      ListedParameter(config, PasswordSetting),
      ListedParameter(config, BranchPrefixSetting),
      ListedParameter(config, PropagateCommentsSetting),
      ListedParameter(config, UseSslSetting),
      ListedParameter(config, IssueTypeSetting),
      ListedParameter(config, CommandsViaCommentsSetting)])
  }

  /** The listing written out parameter by parameter, as GetConfiguration builds it. */
  lemma ListingSpelledOut(config: Stored)
    ensures Listing(config).workingMode == GetWorkingMode(config)
    ensures Listing(config).parameters == [
              Parameter(HostKey, GetValidParameterValue(config, HostKey, HostDefault), HostType, false),
              Parameter(PortNumberKey, GetValidParameterValue(config, PortNumberKey, PortNumberDefault), TextType, false),
              Parameter(UserKey, GetValidParameterValue(config, UserKey, UserDefault), UserType, false),
              Parameter(PasswordKey, GetValidParameterValue(config, PasswordKey, PasswordDefault), TextType, false),
              Parameter(BranchPrefixKey, GetValidParameterValue(config, BranchPrefixKey, BranchPrefixDefault), TextType, false),
              Parameter(PropagateCommentsKey, GetValidParameterValue(config, PropagateCommentsKey, PropagateCommentsDefault), BooleanType, false),
              Parameter(UseSslKey, GetValidParameterValue(config, UseSslKey, UseSslDefault), BooleanType, false),
              Parameter(IssueTypeKey, GetValidParameterValue(config, IssueTypeKey, IssueTypeDefault), TextType, false),
              Parameter(CommandsViaCommentsKey, GetValidParameterValue(config, CommandsViaCommentsKey, CommandsViaCommentsDefault), TextType, false)]
  {
  }

  /** Nine parameters added one by one to an empty list give the list of the nine in order. */
  lemma AppendedInOrder(p1: Parameter, p2: Parameter, p3: Parameter, p4: Parameter, p5: Parameter,
                        p6: Parameter, p7: Parameter, p8: Parameter, p9: Parameter)
    ensures [] + [p1] + [p2] + [p3] + [p4] + [p5] + [p6] + [p7] + [p8] + [p9]
            == [p1, p2, p3, p4, p5, p6, p7, p8, p9]
  {
  }

  /** The listing holds exactly one parameter per listed setting, in listing order. */
  lemma ListingParameters(config: Stored)
    ensures |Listing(config).parameters| == |ListedSettings|
    ensures forall i :: 0 <= i < |ListedSettings| ==>
              Listing(config).parameters[i] == ListedParameter(config, ListedSettings[i])
  {
  }

  predicate DistinctKeys(settings: seq<Setting>) {
    forall i, j :: 0 <= i < j < |settings| ==> settings[i].key != settings[j].key
  }

  /** No two listed settings share a key. */
  lemma ListedKeysDistinct()
    ensures DistinctKeys(ListedSettings)
  {
    assert |HostKey| == 4 && |PortNumberKey| == 4 && HostKey[0] != PortNumberKey[0];
    assert |UserKey| == 7 && |UseSslKey| == 7 && UserKey[3] != UseSslKey[3];
    assert |PasswordKey| == 8 && |BranchPrefixKey| == 13 && |PropagateCommentsKey| == 37;
    assert |IssueTypeKey| == 24 && |CommandsViaCommentsKey| == 64;
  }

  /** Listing settings whose keys are distinct and reading them back resolves each
      setting to the value it had: a stored value that was empty or absent is listed
      as its default, which resolves to the default again. */
  lemma ResolveListedParameters(config: Stored, settings: seq<Setting>, listing: TrackerConfiguration)
    requires DistinctKeys(settings)
    requires |listing.parameters| == |settings|
    requires forall i :: 0 <= i < |settings| ==> listing.parameters[i] == ListedParameter(config, settings[i])
    ensures forall i :: 0 <= i < |settings| ==> Resolved(Some(listing), settings[i]) == Resolved(config, settings[i])
  {
    forall i | 0 <= i < |settings|
      ensures Resolved(Some(listing), settings[i]) == Resolved(config, settings[i])
    {
      FirstValueAt(listing.parameters, settings[i].key, i);
    }
  }

  /** Resolving the listing gives back every setting and the working mode it was made
      from: the configuration dialog round-trips the configuration. */
  lemma ListingKeepsSettings(config: Stored)
    ensures GetWorkingMode(Some(Listing(config))) == GetWorkingMode(config)
    ensures forall i :: 0 <= i < |ListedSettings| ==>
              Resolved(Some(Listing(config)), ListedSettings[i]) == Resolved(config, ListedSettings[i])
  {
    ListedKeysDistinct();
    ListingParameters(config);
    ResolveListedParameters(config, ListedSettings, Listing(config));
  }

  /** One listed setting resolves from the listing as from the store it was made from. */
  lemma ListingResolves(config: Stored, s: Setting)
    requires s in ListedSettings
    ensures GetValidParameterValue(Some(Listing(config)), s.key, s.default) == GetValidParameterValue(config, s.key, s.default)
  {
    ListingKeepsSettings(config);
    var i :| 0 <= i < |ListedSettings| && ListedSettings[i] == s;
    assert Resolved(Some(Listing(config)), ListedSettings[i]) == Resolved(config, ListedSettings[i]);
  }

  /** The base URL read back from the listing is the one the store gives. */
  lemma ListingKeepsBaseUrl(config: Stored)
    ensures BaseUrl(Some(Listing(config))) == BaseUrl(config)
  {
    ListingKeepsHostParts(config);
    ListingKeepsPortParts(config);
  }

  /** The host name and subfolder read back from the listing are the ones the store gives. */
  lemma ListingKeepsHostParts(config: Stored)
    ensures Host(Some(Listing(config))) == Host(config)
    ensures Subfolder(Some(Listing(config))) == Subfolder(config)
  {
    ListingResolves(config, HostSetting);
    assert HostValue(Some(Listing(config))) == HostValue(config);
  }

  /** The protocol and port read back from the listing are the ones the store gives. */
  lemma ListingKeepsPortParts(config: Stored)
    ensures Protocol(Some(Listing(config))) == Protocol(config)
    ensures Port(Some(Listing(config))) == Port(config)
  {
    var listed := Some(Listing(config));
    ListingResolves(config, UseSslSetting);
    assert UseSsl(listed) == UseSsl(config);
    ListingResolves(config, PortNumberSetting);
    assert GetValidParameterValue(listed, PortNumberKey, PortNumberDefault)
           == GetValidParameterValue(config, PortNumberKey, PortNumberDefault);
  }

  /** The user and password read back from the listing are the ones the store gives. */
  lemma ListingKeepsCredentials(config: Stored)
    ensures User(Some(Listing(config))) == User(config)
    ensures Password(Some(Listing(config))) == Password(config)
  {
    ListingResolves(config, UserSetting);
    ListingResolves(config, PasswordSetting);
  }

  /** The branch prefix, the comment option, the issue types and the command pattern
      read back from the listing are the ones the store gives. */
  lemma ListingKeepsTaskOptions(config: Stored)
    ensures BranchPrefix(Some(Listing(config))) == BranchPrefix(config)
    ensures PropagateComments(Some(Listing(config))) == PropagateComments(config)
    ensures Tokenize(IssueTypeFilter(Some(Listing(config)))) == Tokenize(IssueTypeFilter(config))
    ensures CommandPattern(Some(Listing(config))) == CommandPattern(config)
  {
    ListingResolves(config, BranchPrefixSetting);
    ListingResolves(config, PropagateCommentsSetting);
    ListingResolves(config, IssueTypeSetting);
    ListingResolves(config, CommandsViaCommentsSetting);
  }

  // ---------------------------------------------------------------------------

  /** YouTrackExtensionConfiguration: the store plus the lazily filled caches and the
      two title options. */
  class YouTrackConfiguration {
    const stored: Stored
    var issueTypes: Option<seq<string>>
    var commandSelector: Option<string>
    var showIssueStateInBranchTitle: bool
    var ignoreIssueStateForBranchTitle: string

    /** A filled cache holds what the store resolves to. */
    ghost predicate Valid()
      reads this`issueTypes, this`commandSelector
    {
      && (issueTypes.Some? ==> issueTypes.value == Tokenize(IssueTypeFilter(stored)))
      && (commandSelector.Some? ==> commandSelector.value == CommandPattern(stored))
    }

    constructor (config: Stored)
      ensures Valid()
      ensures stored == config && issueTypes == None && commandSelector == None
      ensures showIssueStateInBranchTitle && ignoreIssueStateForBranchTitle == ""
    {
      stored := config;
      issueTypes := None;
      commandSelector := None;
      showIssueStateInBranchTitle := true;
      ignoreIssueStateForBranchTitle := "";
    }

    /** The issue types: tokenized on first use, the cached list on every later read. */
    method IssueTypes() returns (types: seq<string>)
      requires Valid()
      modifies this`issueTypes
      ensures Valid()
      ensures types == Tokenize(IssueTypeFilter(stored)) && issueTypes == Some(types)
      ensures old(issueTypes).Some? ==> types == old(issueTypes).value
    {
      if issueTypes.None? {
        var list := CollectMatches(Tokenize(IssueTypeFilter(stored)));
        issueTypes := Some(list);
      }
      types := issueTypes.value;
    }

    /** The matches added one by one to a fresh list. */
    static method CollectMatches(matches: seq<string>) returns (list: seq<string>)
      ensures list == matches
    {
      list := [];
      for i := 0 to |matches|
        invariant list == matches[..i]
      {
        list := list + [matches[i]];
      }
    }

    /** The command selector pattern: resolved on first use, then cached. */
    method CommandsSelector() returns (pattern: string)
      requires Valid()
      modifies this`commandSelector
      ensures Valid()
      ensures pattern == CommandPattern(stored) && commandSelector == Some(pattern)
    {
      if commandSelector.None? {
        commandSelector := Some(GetValidParameterValue(stored, CommandsViaCommentsKey, CommandsViaCommentsDefault));
      }
      pattern := commandSelector.value;
    }

    /** GetConfiguration: the nine parameters appended one by one. */
    method GetConfiguration() returns (r: TrackerConfiguration)
      ensures r == Listing(stored)
    {
      var parameters: seq<Parameter> := [];
      var workingMode := GetWorkingMode(stored);
      var hostParam := Parameter(HostKey, GetValidParameterValue(stored, HostKey, HostDefault), HostType, false);
      var portParam := Parameter(PortNumberKey, GetValidParameterValue(stored, PortNumberKey, PortNumberDefault), TextType, false);
      var sslParam := Parameter(UseSslKey, GetValidParameterValue(stored, UseSslKey, UseSslDefault), BooleanType, false);
      var userIdParam := Parameter(UserKey, GetValidParameterValue(stored, UserKey, UserDefault), UserType, false);
      var passwordParam := Parameter(PasswordKey, GetValidParameterValue(stored, PasswordKey, PasswordDefault), TextType, false);
      var branchPrefixParam := Parameter(BranchPrefixKey, GetValidParameterValue(stored, BranchPrefixKey, BranchPrefixDefault), TextType, false);
      var propagateCommentsParam := Parameter(PropagateCommentsKey,
        GetValidParameterValue(stored, PropagateCommentsKey, PropagateCommentsDefault), BooleanType, false);
      var issueTypeSelectionParam := Parameter(IssueTypeKey, GetValidParameterValue(stored, IssueTypeKey, IssueTypeDefault), TextType, false);
      var regexSelectorParam := Parameter(CommandsViaCommentsKey,
        GetValidParameterValue(stored, CommandsViaCommentsKey, CommandsViaCommentsDefault), TextType, false);
      parameters := parameters + [hostParam];
      parameters := parameters + [portParam];
      parameters := parameters + [userIdParam];
      parameters := parameters + [passwordParam];
      parameters := parameters + [branchPrefixParam];
      parameters := parameters + [propagateCommentsParam];
      parameters := parameters + [sslParam];
      parameters := parameters + [issueTypeSelectionParam];
      parameters := parameters + [regexSelectorParam];
      AppendedInOrder(hostParam, portParam, userIdParam, passwordParam, branchPrefixParam,
                      propagateCommentsParam, sslParam, issueTypeSelectionParam, regexSelectorParam);
      ListingSpelledOut(stored);
      r := TrackerConfiguration(workingMode, parameters);
    }
  }
}
