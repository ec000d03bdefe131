# PlasticSCM issue-tracker extensions, modelled in Dafny

This project models the two issue-tracker extensions of the PlasticSCM repository:
the YouTrack extension and the sample extension backed by a JSON web service. An
extension links branches and changesets to tasks of an external tracker.

**The YouTrack extension.** The model covers:
- the configuration resolver: defaulted settings, the SSL and comment flags, the port fallback, the host/subfolder split and BaseURL, the issue-type tokenizer and its cache, and the nine-parameter configuration listing;
- reading task ids from branch names;
- the search, issue, login and execute URLs, with `Uri.EscapeDataString` written out as the percent-encoding of sections 2.1 and 2.3 of RFC 3986;
- the branch-title rule and the mapping from a parsed issue document to tasks;
- the checkin directive read from a changeset comment;
- the login session (`_authRetryCount`, `_authData`), with its lazy login and its retry on "Unauthorized.".

**The sample extension.** The model covers its branch-name and task-id logic (including a defect, see Findings), the JSON-to-task mapping, the assignee guard, and the task loading.

**How the code becomes Dafny.** Pure code becomes functions. Code that updates fields or builds lists in loops becomes methods of the classes:
- `Configuration.YouTrackConfiguration`;
- `YouTrack.YoutrackExtension`;
- `Sample.SampleExtension`.

Each method is proved against a function of the old state, and the lemmas state what the extension promises about those functions.

**What the model takes as given.**
- **YouTrack server:** a scripted object, `YouTrackSession.TrackerServer`. It holds the answers it will give, in order, and logs every login URL and request it receives.
- **JSON service:** a `Sample.JsonService` object that maps URLs to deserialized posts and logs the URLs it is asked for.
- **XML parser, and regex engine for a non-default command pattern:** functions passed in as parameters.

The modules:

| file | module | what it holds |
|---|---|---|
| outcomes.dfy | Outcomes | `Option`, `Result` and the exceptions that reach the host |
| text.dfy | Text | ordinal `IndexOf`, `LastIndexOf`, `Split`, `Join`, `Trim`, `Replace(x, "")` |
| numbers.dfy | Numbers | `Int32.ToString` and `Int32.TryParse` |
| escaping.dfy | Escaping | UTF-8 and `Uri.EscapeDataString`, with percent-decoding as its inverse |
| host_types.dfy | HostTypes | the host's configuration store and task record |
| branches.dfy | Branches | `GetBranchName` |
| configuration.dfy | Configuration | `YouTrackExtensionConfiguration` |
| youtrack_queries.dfy | YouTrackQueries | task ids from branch names and the request URLs |
| youtrack_mapping.dfy | YouTrackMapping | issue documents to tasks, branch titles |
| youtrack_checkin.dfy | YouTrackCheckin | the `{{(.*)}}` command selector and the checkin directive |
| youtrack_session.dfy | YouTrackSession | login, retry and the scripted server |
| youtrack_extension.dfy | YouTrack | `YoutrackExtension` |
| sample_extension.dfy | Sample | `SampleExtension` and the JSON service |

Where the code and its documented behaviour differ, the model follows the code:
- After TestConnection, the probe configuration's cookie stays in the session when the clean-up login to the configured server fails. `YouTrackSession.TestConnection` states this case.
- A failed login still increments the retry counter. Only the cookie is left untouched.

## Model

| member | source | states |
|---|---|---|
| Text.IndexOf | YouTrackExtension/YouTrackExtensionConfiguration.cs:90 | -1 exactly when the character is absent, else the position of its first occurrence |
| Text.IndexOfAt | YouTrackExtension/YouTrackExtensionConfiguration.cs:90 | a position holding the character with none before it is the one IndexOf returns |
| Text.LastIndexOf | YouTrackExtension/YouTrackExtension.cs:212 | -1 exactly when the character is absent, else the position of its last occurrence |
| Text.LastIndexOfAt | YouTrackExtension/YouTrackExtension.cs:212 | a position holding the character with none after it is the one LastIndexOf returns |
| Text.Split | YouTrackExtension/YouTrackExtensionConfiguration.cs:90 | String.Split(char) yields at least one piece, and no piece holds the separator |
| Text.JoinSplit | YouTrackExtension/YouTrackExtensionConfiguration.cs:98-101 | joining the pieces of a split with the same separator gives the text back |
| Text.SplitJoin | YouTrackExtension/YouTrackExtension.cs:273 | splitting a joined list gives the list back when no part holds the separator |
| Text.JoinSnoc | YouTrackExtension/YouTrackExtension.cs:101 | joining a list with one more element appends the separator and that element |
| Text.JoinCons | YouTrackExtension/YouTrackExtension.cs:101 | joining a list with one element put in front gives that element, the separator, then the join of the rest |
| Text.SplitFirst | YouTrackExtension/YouTrackExtensionConfiguration.cs:90 | the first piece of a split is the text before the first separator, or the whole text |
| Text.SplitRest | YouTrackExtension/YouTrackExtensionConfiguration.cs:98-101 | the pieces after the first, rejoined, are the text after the first separator |
| Text.TrimStart | YouTrackExtension/YouTrackExtension.cs:269 | a suffix of the text that does not start with white space; everything cut from the front is white space |
| Text.TrimEnd | YouTrackExtension/YouTrackExtension.cs:269 | a prefix of the text that does not end with white space; everything cut from the back is white space |
| Text.Trim | YouTrackExtension/YouTrackExtension.cs:269 | neither starts nor ends with white space, and sits in the text with only white space before and after it |
| Text.TrimAround | YouTrackExtension/YouTrackExtension.cs:269 | the trimmed text starts where the leading white space ends and only white space follows it |
| Text.InnerSlice | YouTrackExtension/YouTrackExtension.cs:269 | a piece cut with white space on both sides is a slice with only white space around it |
| Text.RemoveAll | YouTrackExtension/YouTrackExtension.cs:123 | Replace(pattern, "") never lengthens the text and shortens it exactly when the pattern occurs; an empty pattern is excluded because .NET throws on it |
| Text.RemoveAllAbsent | YouTrackExtension/YouTrackExtension.cs:123 | a text in which the pattern does not occur is returned unchanged |
| Text.RemoveAllFirst | YouTrackExtension/YouTrackExtension.cs:123 | in pre + pattern + post with no occurrence starting inside pre, pre is kept, the pattern dropped and removal goes on in post |
| Text.RemoveAllLeading | YouTrackExtension/YouTrackExtension.cs:123 | an occurrence at the very start is dropped and removal goes on after it |
| Text.NoneEarlierInTail | YouTrackExtension/YouTrackExtension.cs:123 | dropping the first character of pre keeps "no occurrence starting inside pre" |
| Text.RemoveAllAt | YouTrackExtension/YouTrackExtension.cs:123 | with the first occurrence at k, the text before k is kept and removal goes on after that occurrence |
| Text.ShiftOccurs | YouTrackExtension/YouTrackExtension.cs:123 | an occurrence in the tail at j is an occurrence in the text at j + 1 |
| Text.RemoveAllHead | YouTrackExtension/YouTrackExtension.cs:123 | one step of the scan: an occurrence at the start is dropped whole, otherwise the first character is kept |
| Text.RemoveTrailingOccurrence | YouTrackExtension/YouTrackExtension.cs:123 | removing a pattern that only occurs at the end leaves exactly the text before it |
| Numbers.NatToString | YouTrackExtension/YouTrackExtensionConfiguration.cs:111 | decimal digits only, at least one, with no leading zero |
| Numbers.DigitChar | YouTrackExtension/YouTrackExtensionConfiguration.cs:111 | the character written for a digit value is a decimal digit |
| Numbers.DigitsValueOfNatToString | YouTrackExtension/YouTrackExtensionConfiguration.cs:111 | the digits written for a number read back as that number |
| Numbers.TrimNumberWhite | YouTrackExtension/YouTrackExtensionConfiguration.cs:74 | the trimmed text neither starts nor ends with the white space TryParse skips |
| Numbers.TrimmedDigitIn | YouTrackExtension/YouTrackExtensionConfiguration.cs:74 | every character of the trimmed text is a character of the text |
| Numbers.TryParseInt32 | YouTrackExtension/YouTrackExtensionConfiguration.cs:74 | a parsed value lies in the 32-bit range and the text holds a digit |
| Numbers.TryParseIntToString | SampleExtension/SampleExtension.cs:200-201 | Int32.TryParse reads back every 32-bit value Int32.ToString writes |
| Escaping.Utf8 | YouTrackExtension/YouTrackExtension.cs:321 | one to four octets, a single octet exactly for ASCII |
| Escaping.HexDigit | YouTrackExtension/YouTrackExtension.cs:321 | the upper-case hex digit that reads back as its value |
| Escaping.PercentEncode | YouTrackExtension/YouTrackExtension.cs:321 | three characters per octet, all of them unreserved or '%' |
| Escaping.EscapeDataString | YouTrackExtension/YouTrackExtension.cs:321-325 | only unreserved characters and '%' in the result; unreserved text is unchanged |
| Escaping.UnescapeOctet | YouTrackExtension/YouTrackExtension.cs:321 | decoding "%XX" gives back the octet |
| Escaping.UnescapeOctetThen | YouTrackExtension/YouTrackExtension.cs:321 | decoding stays in step with encoding when one more octet is put in front |
| Escaping.PrependTwice | YouTrackExtension/YouTrackExtension.cs:321 | putting two octet runs in front in turn is putting their concatenation in front |
| Escaping.UnescapePercentEncode | YouTrackExtension/YouTrackExtension.cs:321 | percent-decoding percent-encoded octets gives back the octets |
| Escaping.UnescapeEscapeDataString | YouTrackExtension/YouTrackExtension.cs:321-325 | percent-decoding an escaped text gives back the UTF-8 octets of the text |
| HostTypes.GetValue | YouTrackExtension/YouTrackExtensionConfiguration.cs:297 | null exactly when no parameter has the name, else the value of the first that has it |
| HostTypes.FirstValue | YouTrackExtension/YouTrackExtensionConfiguration.cs:297 | none exactly when no parameter carries the name, else the value of the first that does |
| HostTypes.FirstValueAt | YouTrackExtension/YouTrackExtensionConfiguration.cs:297 | the first parameter carrying a name is the one read |
| Branches.BranchName | YouTrackExtension/YouTrackExtension.cs:210-221 | the name unchanged without '/', "" when it ends in '/', else the text after the last '/'; never holds '/' (SampleExtension.cs:133-144 is the same code) |
| Branches.BranchNameOfChild | YouTrackExtension/YouTrackExtension.cs:210-221 | the last segment of any path parent/name is the name |
| Configuration.GetValidParameterValue | YouTrackExtension/YouTrackExtensionConfiguration.cs:294-301 | the default for a null store, an absent or an empty value; otherwise the stored value untrimmed |
| Configuration.User | YouTrackExtension/YouTrackExtensionConfiguration.cs:50-56 | never empty: "username" when the setting is unset, else the stored value as it is |
| Configuration.Password | YouTrackExtension/YouTrackExtensionConfiguration.cs:115-121 | never empty: "password" when the setting is unset, else the stored value as it is |
| Configuration.UseSsl | YouTrackExtension/YouTrackExtensionConfiguration.cs:58-65 | on exactly when the resolved value is not exactly "False"; off for a null store |
| Configuration.Port | YouTrackExtension/YouTrackExtensionConfiguration.cs:67-79 | the parsed value whenever Int32.TryParse succeeds, else 443 with SSL and 80 without |
| Configuration.Protocol | YouTrackExtension/YouTrackExtensionConfiguration.cs:81-84 | "https" exactly when SSL is on and "http" exactly when it is off |
| Configuration.HostName | YouTrackExtension/YouTrackExtensionConfiguration.cs:86-92 | the longest prefix of the Host value holding neither '/' nor ':', so a ":port" is dropped |
| Configuration.Host | YouTrackExtension/YouTrackExtensionConfiguration.cs:86-92 | the longest prefix of the Host value that holds neither '/' nor ':': the character after it, if any, is '/' or ':' |
| Configuration.PathOf | YouTrackExtension/YouTrackExtensionConfiguration.cs:94-105 | "" without '/', else the Host value from its first '/' on |
| Configuration.Subfolder | YouTrackExtension/YouTrackExtensionConfiguration.cs:94-105 | "" when the Host value has no '/'; otherwise that value from its first '/' on |
| Configuration.HostNameAndPathRebuild | YouTrackExtension/YouTrackExtensionConfiguration.cs:86-105 | host and subfolder together give the Host value back when it names no port |
| Configuration.HostParts | YouTrackExtension/YouTrackExtensionConfiguration.cs:86-105 | a Host value splits at its first '/' when no ':' comes before it |
| Configuration.BaseUrl | YouTrackExtension/YouTrackExtensionConfiguration.cs:107-113 | starts with the protocol and "://", and goes on with the host and ":"; BaseUrlTail gives the rest |
| Configuration.BaseUrlTail | YouTrackExtension/YouTrackExtensionConfiguration.cs:107-113 | after "protocol://host:" the base URL is exactly the port's decimal digits followed by the subfolder |
| Configuration.ConcatPrefixes | YouTrackExtension/YouTrackExtensionConfiguration.cs:111 | in a six-part concatenation the first two parts, then the next two, are prefixes in turn |
| Configuration.ConcatTail | YouTrackExtension/YouTrackExtensionConfiguration.cs:111 | in a six-part concatenation the last two parts follow the first four |
| Configuration.BaseUrlHost | YouTrackExtension/YouTrackExtensionConfiguration.cs:107-113 | the base URL after "://", cut at ':', starts with the host name |
| Configuration.FirstPieceBeforeColon | YouTrackExtension/YouTrackExtensionConfiguration.cs:111 | a text that starts with a colon-free host and then ':' splits at ':' into that host first |
| Configuration.DefaultUrlText | YouTrackExtension/YouTrackExtensionConfiguration.cs:107-113 | the default protocol, host, port and subfolder spell "http://myYoutrackHost:80/youtrack" |
| Configuration.BaseUrlWhenUnset | YouTrackExtension/YouTrackExtensionConfiguration.cs:107-113 | with Host, Port and Use SSL unset the base URL is "http://myYoutrackHost:80/youtrack" |
| Configuration.BranchPrefix | YouTrackExtension/YouTrackExtensionConfiguration.cs:123-129 | "yt-" when the setting is unset (no store, no parameter or an empty value), otherwise the stored value; never empty |
| Configuration.PropagateComments | YouTrackExtension/YouTrackExtensionConfiguration.cs:131-138 | on exactly when the resolved value is exactly "True"; on for a null store |
| Configuration.GetWorkingMode | YouTrackExtension/YouTrackExtensionConfiguration.cs:283-292 | TaskOnBranch for a null store or the mode None; any other stored mode is kept; never None |
| Configuration.BraceEnd | YouTrackExtension/YouTrackExtensionConfiguration.cs:149 | `{(.*?)}` ends at the first '}' after the brace, or fails exactly when a line break or the end comes first |
| Configuration.WordLength | YouTrackExtension/YouTrackExtensionConfiguration.cs:149 | `\S+` takes the longest run of non-white-space characters |
| Configuration.Tokenize | YouTrackExtension/YouTrackExtensionConfiguration.cs:149-154 | every match is a brace token, braces kept, or a run of non-white-space characters |
| Configuration.TokenizeLeading | YouTrackExtension/YouTrackExtensionConfiguration.cs:149-154 | a separable token followed by a space or the end is matched as itself |
| Configuration.TokenizeJoin | YouTrackExtension/YouTrackExtensionConfiguration.cs:149-154 | separable tokens joined by spaces tokenize back to themselves |
| Configuration.DefaultFilterJoin | YouTrackExtension/YouTrackExtensionConfiguration.cs:35 | the default filter is the seven default types separated by spaces |
| Configuration.JoinStep | YouTrackExtension/YouTrackExtensionConfiguration.cs:35 | joining one more token with a space extends the joined text by a space and that token |
| Configuration.FilterPrefixBug | YouTrackExtension/YouTrackExtensionConfiguration.cs:35 | the default filter literal up to "Bug" is "Feature", a space and "Bug" |
| Configuration.FilterPrefixTask | YouTrackExtension/YouTrackExtensionConfiguration.cs:35 | the default filter literal up to "Task" is the one up to "Bug", a space and "Task" |
| Configuration.FilterPrefixCosmetics | YouTrackExtension/YouTrackExtensionConfiguration.cs:35 | the default filter literal up to "Cosmetics" is the one up to "Task", a space and "Cosmetics" |
| Configuration.FilterPrefixMeta | YouTrackExtension/YouTrackExtensionConfiguration.cs:35 | the default filter literal up to "{Meta Issue}" is the one up to "Cosmetics", a space and "{Meta Issue}" |
| Configuration.FilterPrefixPerformance | YouTrackExtension/YouTrackExtensionConfiguration.cs:35 | the default filter literal up to "{Performance Problem}" extends the previous one by a space and that type |
| Configuration.FilterPrefixUsability | YouTrackExtension/YouTrackExtensionConfiguration.cs:35 | the whole default filter literal extends the previous one by a space and "{Usability Problem}" |
| Configuration.DefaultIssueTypesSeparable | YouTrackExtension/YouTrackExtensionConfiguration.cs:35 | each of the seven default types is matched as itself |
| Configuration.MetaIssueSeparable | YouTrackExtension/YouTrackExtensionConfiguration.cs:149 | "{Meta Issue}" is matched as one brace token |
| Configuration.PerformanceProblemSeparable | YouTrackExtension/YouTrackExtensionConfiguration.cs:149 | "{Performance Problem}" is matched as one brace token |
| Configuration.UsabilityProblemSeparable | YouTrackExtension/YouTrackExtensionConfiguration.cs:149 | "{Usability Problem}" is matched as one brace token |
| Configuration.DefaultIssueTypesTokens | YouTrackExtension/YouTrackExtensionConfiguration.cs:140-159 | an unset filter gives Feature, Bug, Task, Cosmetics, {Meta Issue}, {Performance Problem}, {Usability Problem}, in that order |
| Configuration.ListingParameters | YouTrackExtension/YouTrackExtensionConfiguration.cs:269-279 | nine parameters, one per setting, in the order Host, Port, User ID, Password, Branch prefix, comments, Use SSL, issue types, regex selector |
| Configuration.ListingSpelledOut | YouTrackExtension/YouTrackExtensionConfiguration.cs:185-281 | the listing is the working mode and the nine parameters, each with its key, its resolved value and its type, in the order GetConfiguration adds them |
| Configuration.AppendedInOrder | YouTrackExtension/YouTrackExtensionConfiguration.cs:269-277 | nine parameters added one by one to an empty list give the list of the nine in that order |
| Configuration.ListedKeysDistinct | YouTrackExtension/YouTrackExtensionConfiguration.cs:16-42 | no two listed settings share a key |
| Configuration.ResolveListedParameters | YouTrackExtension/YouTrackExtensionConfiguration.cs:185-281 | reading listed settings back resolves each to the value it was listed with |
| Configuration.ListingKeepsSettings | YouTrackExtension/YouTrackExtensionConfiguration.cs:185-292 | the listing, read back, resolves every setting and the working mode as the store did |
| Configuration.ListingResolves | YouTrackExtension/YouTrackExtensionConfiguration.cs:185-281 | one listed setting resolves from the listing as from the store |
| Configuration.ListingKeepsBaseUrl | YouTrackExtension/YouTrackExtensionConfiguration.cs:192-216 | the listing gives the same base URL as the store |
| Configuration.ListingKeepsHostParts | YouTrackExtension/YouTrackExtensionConfiguration.cs:192-199 | the listing gives the same host name and subfolder |
| Configuration.ListingKeepsPortParts | YouTrackExtension/YouTrackExtensionConfiguration.cs:201-216 | the listing gives the same protocol and port |
| Configuration.ListingKeepsCredentials | YouTrackExtension/YouTrackExtensionConfiguration.cs:217-233 | the listing gives the same user and password |
| Configuration.ListingKeepsTaskOptions | YouTrackExtension/YouTrackExtensionConfiguration.cs:236-267 | the listing gives the same prefix, comment flag, issue types and command pattern |
| Configuration.YouTrackConfiguration.constructor | YouTrackExtension/YouTrackExtensionConfiguration.cs:175-183 | empty caches, the title state shown, no ignored states |
| Configuration.YouTrackConfiguration.IssueTypes | YouTrackExtension/YouTrackExtensionConfiguration.cs:141-159 | the tokenized filter, filled once; a later read returns the cached list unchanged |
| Configuration.YouTrackConfiguration.CollectMatches | YouTrackExtension/YouTrackExtensionConfiguration.cs:151-154 | the loop adds every match in order |
| Configuration.YouTrackConfiguration.CommandsSelector | YouTrackExtension/YouTrackExtensionConfiguration.cs:162-173 | the resolved command pattern, cached on first use |
| Configuration.YouTrackConfiguration.GetConfiguration | YouTrackExtension/YouTrackExtensionConfiguration.cs:185-281 | the result is the listing, whose order and round trip the lemmas above state |
| YouTrackQueries.TaskIdFromBranchName | YouTrackExtension/YouTrackExtension.cs:223-233 | the name for an empty prefix; "" unless the name starts with the prefix and differs from it; else the name up to its first space, prefix kept |
| YouTrackQueries.TaskIdOfPrefixedName | YouTrackExtension/YouTrackExtension.cs:223-233 | a branch named prefix + number without spaces yields prefix + number |
| YouTrackQueries.Filters | YouTrackExtension/YouTrackExtension.cs:90-97 | one filter per issue type, in order, each `{user}%23{type}+%23Unresolved+%23{prefix minus its last character}` |
| YouTrackQueries.FilterTermHasNoAmpersand | YouTrackExtension/YouTrackExtension.cs:97 | a filter built from '&'-free parts holds no '&' |
| YouTrackQueries.SearchQueryTerms | YouTrackExtension/YouTrackExtension.cs:97-101 | the search query cut at '&' is the filters, in order, then "max=10000" |
| YouTrackQueries.SearchUrl | YouTrackExtension/YouTrackExtension.cs:101 | the base URL and "/rest/issue?" followed by exactly the search query |
| YouTrackQueries.IssueUrl | YouTrackExtension/YouTrackExtension.cs:240 | the base URL and "/rest/issue/" followed by exactly the task id |
| YouTrackQueries.LoginUrl | YouTrackExtension/YouTrackExtension.cs:49-50 | the base URL and "/rest/user/login?", then a query that splits at '&' into login=user and password=password when neither holds '&' |
| YouTrackQueries.LoginQueryParts | YouTrackExtension/YouTrackExtension.cs:50 | the unescaped login query splits into its two parameters when neither value holds '&' |
| YouTrackQueries.LoginUrlUnescaped | YouTrackExtension/YouTrackExtension.cs:50 | the user and password are not escaped: a user "a&b" makes the query split into at least three parts |
| YouTrackQueries.ExecutionStrings | YouTrackExtension/YouTrackExtension.cs:316-326 | the command parameter before the comment parameter, each present exactly when not empty |
| YouTrackQueries.ExecuteUri | YouTrackExtension/YouTrackExtension.cs:328-331 | the issue URL of the task and "/execute?" followed by exactly the execute query |
| YouTrackQueries.DecodeEscaped | YouTrackExtension/YouTrackExtension.cs:321-325 | a parameter name=escaped value decodes to the value's UTF-8 octets |
| YouTrackQueries.EscapedParameterHasNoAmpersand | YouTrackExtension/YouTrackExtension.cs:321-325 | an escaped parameter holds no '&' |
| YouTrackQueries.ExecuteQuerySplit | YouTrackExtension/YouTrackExtension.cs:328-331 | the execute query cut at '&' gives back its parameters |
| YouTrackQueries.ExecuteQueryCount | YouTrackExtension/YouTrackExtension.cs:316-331 | two parameters when both command and comment are given, one otherwise |
| YouTrackQueries.ExecuteQueryCommand | YouTrackExtension/YouTrackExtension.cs:319-322 | the first parameter decodes to the command |
| YouTrackQueries.ExecuteQueryComment | YouTrackExtension/YouTrackExtension.cs:323-326 | the last parameter decodes to the comment |
| YouTrackQueries.ExecuteQueryDecodes | YouTrackExtension/YouTrackExtension.cs:316-333 | the execute query decodes back to the command and the comment it was built from |
| YouTrackQueries.MarkOpenCommand | YouTrackExtension/YouTrackExtension.cs:174 | split at spaces it reads assignee, the assignee, state, in, progress when the assignee holds no space |
| YouTrackQueries.MarkOpenWords | YouTrackExtension/YouTrackExtension.cs:174 | the command text "assignee {a} state in progress" splits into those five words |
| YouTrackMapping.AllFields | YouTrackExtension/YouTrackExtension.cs:279-283 | a document of one issue has exactly that issue's fields |
| YouTrackMapping.FieldText | YouTrackExtension/YouTrackExtension.cs:250-260 | "" when no field of that name has a value; a non-empty result is the first value of such a field |
| YouTrackMapping.FieldTextAt | YouTrackExtension/YouTrackExtension.cs:250-260 | the first field of that name with a value, in document order, is the one read |
| YouTrackMapping.BranchTitle | YouTrackExtension/YouTrackExtension.cs:262-277 | the summary when off; "[type] summary [state]" with a blank ignore list; else the summary for a listed state and "summary [state]" for any other |
| YouTrackMapping.IgnoredStateTitle | YouTrackExtension/YouTrackExtension.cs:273-276 | with the ignore list written as comma-separated states, the title is the bare summary exactly when the state is listed |
| YouTrackMapping.BuildTask | YouTrackExtension/YouTrackExtension.cs:279-295 | the id is the branch prefix followed by numberInProject; owner, status and description are the Assignee, State and description fields; the title is BranchTitle of Type, State and summary |
| YouTrackMapping.BuildTasks | YouTrackExtension/YouTrackExtension.cs:297-311 | one task per issue, in order, each read from its own issue; none for no issue |
| YouTrackMapping.LoadXml | YouTrackExtension/YouTrackExtension.cs:300 | an empty text is an error; otherwise the parser's result |
| YouTrackMapping.BranchOfBuiltTask | YouTrackExtension/YouTrackExtension.cs:279-295 | the branch named after a built task, under any parent, yields that task's id back |
| YouTrackCheckin.LastClose | YouTrackExtension/YouTrackExtension.cs:120 | the last `}}` on the line that closes the command, or none |
| YouTrackCheckin.FirstCommand | YouTrackExtension/YouTrackExtension.cs:120 | the leftmost `{{`, greedily extended, with no earlier match and no longer one |
| YouTrackCheckin.DefaultSelectorMatch | YouTrackExtension/YouTrackExtension.cs:120 | no match exactly when no `{{…}}` sits on one line; a match is "{{" + group + "}}" with no line break in the group |
| YouTrackCheckin.SelectorMatch | YouTrackExtension/YouTrackExtension.cs:120 | the default pattern is matched as above, any other by the regex engine |
| YouTrackCheckin.CheckinDirective | YouTrackExtension/YouTrackExtension.cs:116-130 | command = group 1 on a match; the comment is "Via PlasticSCM: " + the comment with every occurrence of the match removed, only when that rest is not empty and propagation is on; an empty match throws |
| YouTrackCheckin.FirstCommandIs | YouTrackExtension/YouTrackExtension.cs:120 | a command with none before it and none reaching further is the one found |
| YouTrackCheckin.TrailingMatch | YouTrackExtension/YouTrackExtension.cs:120-125 | in text{{command}} the default pattern matches the braces and the command |
| YouTrackCheckin.TrailingDirective | YouTrackExtension/YouTrackExtension.cs:121-130 | a comment ending in its only match keeps the text before it |
| YouTrackCheckin.TrailingCommand | YouTrackExtension/YouTrackExtension.cs:114-130 | "text{{command}}" gives the command and "Via PlasticSCM: text" (with propagation on and text not empty) |
| YouTrackSession.NextLogin | YouTrackExtension/YouTrackExtension.cs:53 | the server answers one login from its script and logs the URL |
| YouTrackSession.NextReply | YouTrackExtension/YouTrackExtension.cs:343-359 | the server answers one request from its script and logs it |
| YouTrackSession.Authenticate | YouTrackExtension/YouTrackExtension.cs:43-66 | the exact success text stores the cookie and resets the counter to 0; any other answer increments the counter and keeps the cookie |
| YouTrackSession.Fetch | YouTrackExtension/YouTrackExtension.cs:335-379 | lazy login, then the request; each call sends at least one request; FetchBody gives the text of a successful answer |
| YouTrackSession.FetchBody | YouTrackExtension/YouTrackExtension.cs:351-360 | with a cookie and a successful answer, the call returns that answer's text after exactly one request carrying the cookie, and the session is unchanged |
| YouTrackSession.FetchStep | YouTrackExtension/YouTrackExtension.cs:335-379 | one round after the lazy login and the request: a Body answer is the result, an "Unauthorized." failure below the bound starts over after a new login with fewer replies left, any other failure gives "" |
| YouTrackSession.FetchLogsGrow | YouTrackExtension/YouTrackExtension.cs:335-379 | a fetch only appends to the logs and always appends at least one request |
| YouTrackSession.FetchLazyLogin | YouTrackExtension/YouTrackExtension.cs:337-343 | without a cookie the first thing sent is a login to the configured URL and the request then carries the new cookie; with a cookie the request carries it, and no login happens when the answer comes at once |
| YouTrackSession.FailingLoginsBoundRetries | YouTrackExtension/YouTrackExtension.cs:364-371 | while logins fail, one fetch sends at most 4 - counter requests |
| YouTrackSession.SucceedingLoginsRetryForever | YouTrackExtension/YouTrackExtension.cs:364-371 | with logins that succeed and n "Unauthorized." answers, one fetch sends n + 1 requests, for every n |
| YouTrackSession.GiveUp | YouTrackExtension/YouTrackExtension.cs:362-375 | another failure, or one at counter 3, returns "" after one request and no login |
| YouTrackSession.TestConnection | YouTrackExtension/YouTrackExtension.cs:185-195 | true exactly when the probe login succeeds; the last login goes to the configured server; the probe's cookie stays if that login fails |
| YouTrackSession.TrackerServer.Login | YouTrackExtension/YouTrackExtension.cs:53 | the login POST as the script function NextLogin says |
| YouTrackSession.TrackerServer.Send | YouTrackExtension/YouTrackExtension.cs:343-359 | the GET or POST as the script function NextReply says |
| YouTrackSession.TrackerServer.constructor | YouTrackExtension/YouTrackExtension.cs:341-359 | a server with the given scripts and empty logs |
| YouTrack.ConfiguredLogin | YouTrackExtension/YouTrackExtension.cs:40 | the login URL for the configured base URL, user and password, whose query splits back into those two when neither holds '&' |
| YouTrack.BranchTaskId | YouTrackExtension/YouTrackExtension.cs:223-233 | "" unless the last segment starts with the prefix and differs from it; a non-empty id starts the segment, holds no space and ends at the segment's end or at its first space; with a space-free prefix the id keeps the prefix |
| YouTrack.TaskFromXml | YouTrackExtension/YouTrackExtension.cs:279-295 | an empty response is an error; a task exactly when the text parses, and then the task BuildTask reads from the issue's fields, its id starting with the prefix |
| YouTrack.TasksFromXml | YouTrackExtension/YouTrackExtension.cs:297-311 | an error exactly when the response is empty or does not parse; otherwise task i is BuildTask of issue i, one per issue |
| YouTrack.TaskFromId | YouTrackExtension/YouTrackExtension.cs:236-247 | an empty answer gives the bare task carrying the requested id; any other answer gives TaskFromXml of it |
| YouTrack.SingleTask | YouTrackExtension/YouTrackExtension.cs:202-208 | no task and no request for an empty id; otherwise a task or an error, after at least one request; SingleTaskLoads ties it to TaskFromId |
| YouTrack.SingleTaskLoads | YouTrackExtension/YouTrackExtension.cs:202-208 | for a non-empty id, the world after TaskFromId, and its task, present, exactly when TaskFromId gives one |
| YouTrack.TasksOf | YouTrackExtension/YouTrackExtension.cs:157-170 | at least the tasks already loaded and at most one more per id |
| YouTrack.TasksOfSkipsEmpty | YouTrackExtension/YouTrackExtension.cs:157-170 | an empty id changes nothing, as if it were not in the list |
| YouTrack.TasksOfKeepsEvery | YouTrackExtension/YouTrackExtension.cs:157-170 | without empty ids a successful call gives one task per id |
| YouTrack.LoadEach | YouTrackExtension/YouTrackExtension.cs:161-164 | one result per id, in order, none exactly for an empty id |
| YouTrack.Kept | YouTrackExtension/YouTrackExtension.cs:164-166 | the null results dropped, so no more tasks than results |
| YouTrack.TasksOfLoadsEach | YouTrackExtension/YouTrackExtension.cs:157-170 | the loop sends what loading every id in order sends, and fails exactly when that fails |
| YouTrack.TasksOfKeepsOrder | YouTrackExtension/YouTrackExtension.cs:157-170 | a successful call gives the loaded tasks of the ids in the order of the ids, nulls dropped |
| YouTrack.KeptCons | YouTrackExtension/YouTrackExtension.cs:164-166 | keeping the tasks of a list with one result in front keeps that result, if any, first |
| YouTrack.LoadStep | YouTrackExtension/YouTrackExtension.cs:161-167 | one loop step: the first id is loaded, a failure ends the call, otherwise its task, if any, is added and the rest follow |
| YouTrack.TasksForBranches | YouTrackExtension/YouTrackExtension.cs:145-154 | the dictionary's keys are exactly the branch names |
| YouTrack.BranchEntriesMatchIds | YouTrackExtension/YouTrackExtension.cs:145-154 | a branch maps to null exactly when it yields no task id |
| YouTrack.RepeatedBranchFails | YouTrackExtension/YouTrackExtension.cs:145-154 | a repeated branch name makes the call fail |
| YouTrack.TasksForBranchesStep | YouTrackExtension/YouTrackExtension.cs:148-152 | one loop step: the first name's task is loaded, then a repeated key throws and a new one is added |
| YouTrack.FirstBranch | YouTrackExtension/YouTrackExtension.cs:148-152 | a name already present makes the step fail; otherwise the step fails or enters the name and goes on with the rest |
| YouTrack.RepeatInTail | YouTrackExtension/YouTrackExtension.cs:151 | a name repeated later in the list is still repeated once the first name has been added |
| YouTrack.UnresolvedIssues | YouTrackExtension/YouTrackExtension.cs:88-105 | GET of the search URL; the result is TasksFromXml of the answer, so an empty answer is an XML error |
| YouTrack.Execute | YouTrackExtension/YouTrackExtension.cs:316-333 | each execute call sends at least one request |
| YouTrack.ExecuteAll | YouTrackExtension/YouTrackExtension.cs:132-135 | at least one request per task |
| YouTrack.ExecuteRequests | YouTrackExtension/YouTrackExtension.cs:132-135 | one execute POST per task, in the order of the tasks |
| YouTrack.AppendOneThenRest | YouTrackExtension/YouTrackExtension.cs:132-135 | appending one request and then the rest is appending the request followed by the rest |
| YouTrack.ExecuteAllStep | YouTrackExtension/YouTrackExtension.cs:132-135 | one loop step: the execute call for task i, then the tasks after it |
| YouTrack.ExecuteAnswered | YouTrackExtension/YouTrackExtension.cs:316-333 | an execute call answered at once sends one POST with the session's cookie |
| YouTrack.ExecuteAllSendsOnePerTask | YouTrackExtension/YouTrackExtension.cs:132-135 | with a session and every call answered, exactly one execute request per task, in order, even for an empty command and comment |
| YouTrack.Checkin | YouTrackExtension/YouTrackExtension.cs:114-136 | the directive is CheckinDirective of the comment and its command match; nothing is sent when Replace throws; otherwise one execute call per task; no comment without propagation |
| YouTrack.YoutrackExtension.constructor | YouTrackExtension/YouTrackExtension.cs:24-36 | counter 0, no cookie, a fresh configuration |
| YouTrack.YoutrackExtension.Authenticate | YouTrackExtension/YouTrackExtension.cs:43-66 | the new session and server are YouTrackSession.Authenticate of the old |
| YouTrack.YoutrackExtension.Connect | YouTrackExtension/YouTrackExtension.cs:38-41 | a login with the configured URL, user and password |
| YouTrack.YoutrackExtension.ConnectToYoutrack | YouTrackExtension/YouTrackExtension.cs:335-379 | the answer and new state are Fetch of the old state, so the retry bounds above apply |
| YouTrack.YoutrackExtension.TestConnection | YouTrackExtension/YouTrackExtension.cs:185-195 | the result and new state are YouTrackSession.TestConnection of the old |
| YouTrack.YoutrackExtension.BuildTasksFromXML | YouTrackExtension/YouTrackExtension.cs:297-311 | the loop builds TasksFromXml: one task per issue, in order |
| YouTrack.YoutrackExtension.GetPlasticTaskFromTaskID | YouTrackExtension/YouTrackExtension.cs:236-247 | the result and new state are TaskFromId |
| YouTrack.YoutrackExtension.LoadSingleTask | YouTrackExtension/YouTrackExtension.cs:202-208 | the result and new state are SingleTask |
| YouTrack.YoutrackExtension.GetTaskForBranch | YouTrackExtension/YouTrackExtension.cs:139-142 | the task of the id read from the branch's last segment |
| YouTrack.YoutrackExtension.LoadTasks | YouTrackExtension/YouTrackExtension.cs:157-170 | the loop computes TasksOf, which skips exactly the empty ids |
| YouTrack.YoutrackExtension.GetTasksForBranches | YouTrackExtension/YouTrackExtension.cs:145-154 | the loop computes TasksForBranches, which fails on a repeated name |
| YouTrack.YoutrackExtension.GetUnresolvedIssues | YouTrackExtension/YouTrackExtension.cs:88-105 | the search over the cached issue types, read as UnresolvedIssues |
| YouTrack.YoutrackExtension.GetPendingTasksOf | YouTrackExtension/YouTrackExtension.cs:78-81 | the "for:me" search; the assignee argument is not used |
| YouTrack.YoutrackExtension.GetPendingTasks | YouTrackExtension/YouTrackExtension.cs:83-86 | the search without the user filter |
| YouTrack.YoutrackExtension.ExecuteOnYoutrack | YouTrackExtension/YouTrackExtension.cs:316-333 | a POST of the execute URI built from ExecutionStrings |
| YouTrack.YoutrackExtension.LogCheckinResult | YouTrackExtension/YouTrackExtension.cs:114-136 | the result and new state are Checkin: the directive, then one execute call per task in order |
| YouTrack.YoutrackExtension.MarkTaskAsOpen | YouTrackExtension/YouTrackExtension.cs:172-177 | one execute call with only the command "assignee {a} state in progress" |
| Sample.TaskIdFromBranchName | SampleExtension/SampleExtension.cs:146-156 | as written: the name for a null or empty prefix, "" for the prefix itself, an error exactly when the name is shorter than the prefix, and otherwise the name minus its first |prefix| characters, whether or not it starts with the prefix |
| Sample.SelfPrefixCheck | SampleExtension/SampleExtension.cs:152-155 | a name that does not start with the prefix still yields a non-empty id, where the intended check gives "" |
| Sample.SelfPrefixCheckExample | SampleExtension/SampleExtension.cs:152-155 | the branch "main" under the prefix "yt-" yields the task id "n" |
| Sample.IntendedTaskIdFromBranchName | SampleExtension/SampleExtension.cs:146-156 | corrected: a non-empty id is exactly what follows the prefix in the name |
| Sample.IntendedTaskIdRoundTrip | SampleExtension/SampleExtension.cs:146-156 | the branch prefix + id yields the id |
| Sample.BranchTaskId | SampleExtension/SampleExtension.cs:66 | the id the code as written cuts from the last segment: the segment itself without a prefix, "" for the prefix itself, otherwise the segment minus its first |prefix| characters; ArgumentOutOfRange exactly when a configured non-empty prefix is longer than that segment |
| Sample.PostUrl | SampleExtension/SampleExtension.cs:126 | the fixed post URL prefix followed by exactly the task id |
| Sample.PostsByUserUrl | SampleExtension/SampleExtension.cs:56 | the fixed posts-by-user prefix followed by exactly the assignee |
| Sample.PostUrlInjective | SampleExtension/SampleExtension.cs:126 | two ids with the same post URL are the same id |
| Sample.AssigneeAccepted | SampleExtension/SampleExtension.cs:52-54 | accepted exactly when Int32.TryParse reads the assignee, so an empty or digit-free assignee is refused |
| Sample.BuildTaskFromJson | SampleExtension/SampleExtension.cs:193-206 | null exactly for null; status "working", title and description from the post |
| Sample.BuildTaskFromJsonNumbers | SampleExtension/SampleExtension.cs:198-205 | the id and owner read back as the post's id and user id |
| Sample.SingleTask | SampleExtension/SampleExtension.cs:121-131 | no task for an empty id; otherwise the post at the post URL, mapped |
| Sample.SingleTaskRequests | SampleExtension/SampleExtension.cs:121-127 | no request for an empty id, else exactly one, to the post URL of the id |
| Sample.LoadedTasks | SampleExtension/SampleExtension.cs:80-93 | no more tasks than ids |
| Sample.LoadRequests | SampleExtension/SampleExtension.cs:80-93 | no more requests than ids |
| Sample.LoadedTasksAppend | SampleExtension/SampleExtension.cs:80-93 | loading two lists is loading the first, then the second |
| Sample.LoadRequestsAppend | SampleExtension/SampleExtension.cs:80-93 | the requests of two lists are those of the first, then those of the second |
| Sample.LoadedTasksSkipEmpty | SampleExtension/SampleExtension.cs:80-93 | an empty id adds neither a task nor a request |
| Sample.LoadStep | SampleExtension/SampleExtension.cs:84-90 | one loop step: the task of the next id, if any, and its request are appended |
| Sample.TasksForBranches | SampleExtension/SampleExtension.cs:69-78 | the only failures are ArgumentOutOfRange from cutting an id and a duplicate key |
| Sample.TasksForBranchesOk | SampleExtension/SampleExtension.cs:69-78 | the dictionary is built exactly when no branch name repeats and every name's id can be cut |
| Sample.TasksForBranchesKeys | SampleExtension/SampleExtension.cs:69-78 | its keys are exactly the names, each mapped to the task of its own id |
| Sample.BranchRequests | SampleExtension/SampleExtension.cs:72-76 | at most one request per branch name |
| Sample.DistinctSnoc | SampleExtension/SampleExtension.cs:75 | a list with one more name repeats none exactly when the list repeats none and the name is new |
| Sample.BranchStep | SampleExtension/SampleExtension.cs:72-76 | one loop step after a successful prefix: the dictionary becomes AddBranch of the one built so far and the step's request is appended; when that step throws, the later names change neither the failure nor the requests |
| Sample.AddBranch | SampleExtension/SampleExtension.cs:74-75 | adding one name fails with ArgumentOutOfRange or DuplicateKey, succeeds exactly when the id can be cut and the name is new, and then keeps every earlier entry and maps the name to the task of its id |
| Sample.StepRequests | SampleExtension/SampleExtension.cs:74-75 | one name sends at most one request, and none exactly when its id cannot be cut or is empty |
| Sample.TasksForBranchesOkStep | SampleExtension/SampleExtension.cs:72-76 | one more name keeps the characterisation of TasksForBranchesOk |
| Sample.IdsComputableSnoc | SampleExtension/SampleExtension.cs:74 | every id of a list with one more name can be cut exactly when every id of the list can and the new name's can |
| Sample.BranchTasksErrorStays | SampleExtension/SampleExtension.cs:69-78 | after the first failure the later names change neither the failure nor the requests sent |
| Sample.TasksFromPosts | SampleExtension/SampleExtension.cs:158-169 | a null list throws; otherwise one mapped entry per post, in order |
| Sample.JsonService.GetPost | SampleExtension/SampleExtension.cs:126-130 | the deserialized post, with the URL logged |
| Sample.JsonService.GetPosts | SampleExtension/SampleExtension.cs:161-164 | the deserialized list, with the URL logged |
| Sample.JsonService.constructor | SampleExtension/SampleExtension.cs:171-191 | a service with the given answers and an empty log |
| Sample.SampleExtension.constructor | SampleExtension/SampleExtension.cs:28-33 | the given configuration and service |
| Sample.SampleExtension.GetPendingTasksOf | SampleExtension/SampleExtension.cs:50-57 | an empty list and no request unless the assignee parses as an int; else the posts of that user |
| Sample.SampleExtension.GetPendingTasks | SampleExtension/SampleExtension.cs:59-62 | the tasks of all posts, one request |
| Sample.SampleExtension.GetTaskForBranch | SampleExtension/SampleExtension.cs:64-67 | ArgumentOutOfRange and no request when the id cannot be cut; otherwise the task of that id and SingleTaskRequests of it |
| Sample.SampleExtension.GetTasksForBranches | SampleExtension/SampleExtension.cs:69-78 | the loop computes TasksForBranches and sends exactly BranchRequests, whether the call succeeds or fails |
| Sample.SampleExtension.AddTaskForBranch | SampleExtension/SampleExtension.cs:74-75 | one loop iteration computes AddBranch and sends exactly StepRequests of the name |
| Sample.SampleExtension.LoadTasks | SampleExtension/SampleExtension.cs:80-93 | the loop computes LoadedTasks and requests exactly LoadRequests |
| Sample.SampleExtension.TestConnection | SampleExtension/SampleExtension.cs:111-114 | always true |
| Sample.SampleExtension.LoadSingleTask | SampleExtension/SampleExtension.cs:121-131 | SingleTask, with one request exactly for a non-empty id |
| Sample.SampleExtension.QueryServiceForTasks | SampleExtension/SampleExtension.cs:158-169 | the loop computes TasksFromPosts of the list, one request |

## Left out

- Network I/O: WebClient and HttpWebRequest traffic is replaced by the scripted `TrackerServer` and `JsonService` objects. Timeouts, headers other than Cookie, and concurrency are not modelled.
- YouTrackSession.Fetch: a script that has run out answers with a failure whose message is empty. This ends the retry recursion, so a real server that answers "Unauthorized." forever is shown only as a family of scripts, by `SucceedingLoginsRetryForever` for every n.
- XML parsing: `XmlDocument.LoadXml` and the XPath queries are a parser passed in as a function from text to a document of issues and fields. Only the empty text is fixed as an error.
- JSON deserialization: Newtonsoft is a function from URL to an optional post or list. A malformed response that throws instead of reading as null is not modelled.
- YouTrackCheckin.SelectorMatch: a configured command pattern other than `{{(.*)}}` is matched by a regex engine passed in as a function. Only the default pattern is written out.
- Numbers.TryParseInt32: models NumberStyles.Integer in the invariant culture. Culture-specific signs and trailing NUL characters are not modelled.
- Logging (log4net), `OpenTaskExternally` (Process.Start), `GetExtensionName` and the two factory classes are left out: they are side effects or host registration.
- The no-op methods are left out: `Disconnect` and `UpdateLinkedTasksToChangeset` of both extensions, and the sample extension's `Connect`.
- The sample extension's LogCheckinResult and MarkTaskAsOpen: both have an empty body, so there is nothing to state.
- YouTrack.YoutrackExtension.TestConnection: the probe configuration object is not allocated. Its BaseURL, User and Password are read from the stored configuration it would wrap.
- Text.StartsWith: .NET String.StartsWith(string) compares with the current culture's rules; the model compares character by character, as an ordinal comparison does.
- Lengths: the model counts characters where .NET counts UTF-16 code units. The two differ for text outside the Basic Multilingual Plane, which matters for the Substring at SampleExtension/SampleExtension.cs:155 and YouTrackExtension/YouTrackExtension.cs:94.
- MyServiceData: modelled as a plain datatype with 32-bit integer fields.

## Findings

| source | as written | input that shows it | evidently intended | confidence | as-written member | corrected member |
|---|---|---|---|---|---|---|
| SampleExtension/SampleExtension.cs:152-155 | the guard tests `branchName.StartsWith(branchName)`, which always holds, so any name other than the prefix loses its first prefix.Length characters | prefix "yt-", branch "main" gives the task id "n" (and a name shorter than the prefix throws) | test `branchName.StartsWith(prefix)`, giving "" for names outside the prefix | not executed | Sample.SelfPrefixCheckExample | Sample.IntendedTaskIdRoundTrip |
