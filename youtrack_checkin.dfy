/**
 * LogCheckinResult's reading of a changeset comment: the command selected by the
 * configured pattern (by default `{{(.*)}}`) and the comment left once every
 * occurrence of the selected text is removed.
 */
module YouTrackCheckin {
  import opened Outcomes
  import opened Text
  import opened Configuration

  /** A successful match: the whole matched text (group 0) and group 1. */
  datatype CommandMatch = CommandMatch(whole: string, group: string)

  /** `{{` at `open`, `}}` at `close`, and no line break between them: where the default
      pattern `{{(.*)}}` can match, `.` matching anything but '\n'. */
  predicate IsCommandAt(s: string, open: int, close: int) {
    0 <= open && open + 2 <= close && close + 2 <= |s|
    && s[open] == '{' && s[open + 1] == '{' && s[close] == '}' && s[close + 1] == '}'
    && '\n' !in s[open + 2..close]
  }

  datatype Span = Span(open: nat, close: nat)

  /** The last `}}` at or before `close` that ends a command opened at `open`. */
  function LastClose(s: string, open: nat, close: int): (r: Option<nat>)
    ensures r.Some? ==> IsCommandAt(s, open, r.value) && r.value <= close
    ensures r.Some? ==> forall c :: r.value < c <= close ==> !IsCommandAt(s, open, c)
    ensures r.None? ==> forall c :: c <= close ==> !IsCommandAt(s, open, c)
    decreases close
  {
    if close < open + 2 then None
    else if IsCommandAt(s, open, close) then Some(close)
    else LastClose(s, open, close - 1)
  }

  /** The leftmost command starting at or after `from`, extended as far as it goes. */
  function FirstCommand(s: string, from: nat): (r: Option<Span>)
    ensures r.Some? ==> from <= r.value.open && IsCommandAt(s, r.value.open, r.value.close)
    ensures r.Some? ==> forall o, c :: from <= o < r.value.open ==> !IsCommandAt(s, o, c)
    ensures r.Some? ==> forall c :: r.value.close < c ==> !IsCommandAt(s, r.value.open, c)
    ensures r.None? ==> forall o, c :: from <= o ==> !IsCommandAt(s, o, c)
    decreases |s| - from
  {
    if |s| < from + 4 then None
    else
      var close := LastClose(s, from, |s| - 2);
      if close.Some? then Some(Span(from, close.value)) else FirstCommand(s, from + 1)
  }

  /** Regex.Match with the default pattern `{{(.*)}}`: the leftmost `{{`, the lazy-free
      `.*` taking the rest of the line up to the last `}}` on it. */
  function DefaultSelectorMatch(s: string): (m: Option<CommandMatch>)
    ensures m.None? <==> forall o, c :: !IsCommandAt(s, o, c)
    ensures m.Some? ==> m.value.whole == "{{" + m.value.group + "}}" && '\n' !in m.value.group
  {
    var span := FirstCommand(s, 0);
    if span.None? then None
    else
      var whole := s[span.value.open..span.value.close + 2];
      var group := s[span.value.open + 2..span.value.close];
      assert whole == "{{" + group + "}}";
      Some(CommandMatch(whole, group))
  }

  /** The match of the configured selector: the default pattern is matched as above,
      any other pattern by the regular-expression engine passed in. */
  function SelectorMatch(matchRegex: (string, string) -> Option<CommandMatch>, pattern: string, s: string): (m: Option<CommandMatch>)
    ensures pattern == CommandsViaCommentsDefault ==> m == DefaultSelectorMatch(s)
    ensures pattern != CommandsViaCommentsDefault ==> m == matchRegex(pattern, s)
  {
    if pattern == CommandsViaCommentsDefault then DefaultSelectorMatch(s) else matchRegex(pattern, s)
  }

  /** What each selected task receives: a command and a comment, either possibly empty. */
  datatype Directive = Directive(command: string, comment: string)

  const CommentPrefix := "Via PlasticSCM: "

  /** LogCheckinResult before its calls: on a match, every occurrence of the matched text
      is cut from the comment and group 1 is the command (an empty matched text makes
      String.Replace throw); the rest is sent as a comment when it is not empty and
      comments are propagated. */
  function CheckinDirective(changeComment: string, m: Option<CommandMatch>, propagate: bool): (r: Result<Directive>)
    ensures r.Err? <==> m.Some? && m.value.whole == ""
    ensures r.Err? ==> r.fault == EmptyOldValue
    ensures r.Ok? ==> r.value.command == (if m.Some? then m.value.group else "")
    ensures r.Ok? && !propagate ==> r.value.comment == ""
    ensures r.Ok? && r.value.comment != "" ==>
              StartsWith(r.value.comment, CommentPrefix) && |r.value.comment| > |CommentPrefix|
    ensures m.None? ==> r == Ok(Directive("", if changeComment != "" && propagate then CommentPrefix + changeComment else ""))
    ensures m.Some? && r.Ok? ==>
              var rest := RemoveAll(changeComment, m.value.whole);
              r.value.comment == if rest != "" && propagate then CommentPrefix + rest else ""
  {
    if m.Some? && m.value.whole == "" then Err(EmptyOldValue)
    else
      var rest := if m.Some? then RemoveAll(changeComment, m.value.whole) else changeComment;
      var command := if m.Some? then m.value.group else "";
      var comment := if |rest| > 0 && propagate then CommentPrefix + rest else "";
      Ok(Directive(command, comment))
  }

  /** The match is pinned down by where it can start and end: a command at `open` with
      none before it and none reaching further is the one found. */
  lemma FirstCommandIs(s: string, open: nat, close: nat)
    requires IsCommandAt(s, open, close)
    requires forall o, c :: 0 <= o < open ==> !IsCommandAt(s, o, c)
    requires forall c :: close < c ==> !IsCommandAt(s, open, c)
    ensures FirstCommand(s, 0) == Some(Span(open, close))
  {
  }

  /** In `text{{command}}`, with no '{' in the text, the default pattern matches the
      trailing braces and their content. */
  lemma TrailingMatch(text: string, command: string)
    requires '{' !in text && '\n' !in command
    ensures DefaultSelectorMatch(text + "{{" + command + "}}") == Some(CommandMatch("{{" + command + "}}", command))
  {
    var s := text + "{{" + command + "}}";
    var open, close := |text|, |s| - 2;
    assert s[open + 2..close] == command;
    assert IsCommandAt(s, open, close);
    forall o, c | 0 <= o < open ensures !IsCommandAt(s, o, c) {
      assert s[o] == text[o];
    }
    FirstCommandIs(s, open, close);
    assert s[open..close + 2] == "{{" + command + "}}";
  }

  /** A comment ending in its only match loses the match and keeps the text before it. */
  lemma TrailingDirective(text: string, m: CommandMatch, propagate: bool)
    requires m.whole != "" && m.whole[0] !in text
    ensures CheckinDirective(text + m.whole, Some(m), propagate)
            == Ok(Directive(m.group, if text != "" && propagate then CommentPrefix + text else ""))
  {
    RemoveTrailingOccurrence(text, m.whole);
  }

  /** A comment ending in `{{command}}`: the command is what the braces hold, and the
      comment is the text before it. */
  lemma TrailingCommand(text: string, command: string, propagate: bool)
    requires '{' !in text && '\n' !in command
    ensures var s := text + "{{" + command + "}}";
            CheckinDirective(s, DefaultSelectorMatch(s), propagate)
            == Ok(Directive(command, if text != "" && propagate then CommentPrefix + text else ""))
  {
    var m := CommandMatch("{{" + command + "}}", command);
    TrailingMatch(text, command);
    assert text + "{{" + command + "}}" == text + m.whole;
    TrailingDirective(text, m, propagate);
  }
}
