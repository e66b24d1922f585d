/**
  The query records of the launcher's plugin package and the parser that turns
  the text typed into the launcher into a `Query`: a trigger keyword that routes
  it to one plugin, an optional command of that plugin, and the search text.
*/
module Plugin {

  import opened Wrappers
  import opened GoStrings

  /** Go's `int64`; scores and refresh intervals are passed through unchanged. */
  newtype Int64 = x: int | -0x8000_0000_0000_0000 <= x < 0x8000_0000_0000_0000

  /** A query type is a plain string in the source; two values are named. */
  type QueryType = string

  const QueryTypeInput: QueryType := "input"
  const QueryTypeSelection: QueryType := "selection"

  /** Placeholder a plugin may put in a query to stand for the selected text. */
  const QueryVariableSelectedText: string := "{wox:selected_text}"

  /** Display payloads whose structure this package does not look into. */
  type WoxImage(==)
  type WoxPreview(==)

  /** The content of a user selection (text, files or an image). */
  type SelectionPayload(==)

  /** The `Selection` field of a query: its zero value when the query is typed
      input, the selected content otherwise. */
  datatype Selection = ZeroSelection | Selected(payload: SelectionPayload)

  /** A callback field (`func` value) of a result or action, by identity only;
      `Nil` is the nil function. */
  datatype CallbackRef = Nil | Callback(id: nat)

  /** A command a plugin declares; only its name takes part in parsing. */
  datatype MetadataCommand = MetadataCommand(command: string)

  /** What the parser needs from a plugin instance: its trigger keywords and
      the commands it declares for queries. */
  datatype PluginInstance = PluginInstance(
    triggerKeywords: seq<string>,
    queryCommands: seq<MetadataCommand>)

  datatype Query = Query(
    queryType: QueryType,
    rawQuery: string,
    triggerKeyword: string,
    command: string,
    search: string,
    selection: Selection)
  {
    /** A global query is typed input without a trigger keyword: it is offered
        to every plugin that accepts global queries. */
    predicate IsGlobalQuery(): (global: bool)
      ensures global <==> queryType == QueryTypeInput && |triggerKeyword| == 0
    {
      queryType == QueryTypeInput && triggerKeyword == ""
    }

    /** The text of the query: the raw input for typed queries, the selection's
        own rendering (supplied by the caller) for selections, "" otherwise. */
    function String(renderSelection: Selection -> string): (s: string)
      ensures queryType == QueryTypeInput ==> s == rawQuery
      ensures queryType == QueryTypeSelection ==> s == renderSelection(selection)
      ensures queryType != QueryTypeInput && queryType != QueryTypeSelection ==> s == ""
    {
      if queryType == QueryTypeInput then rawQuery
      else if queryType == QueryTypeSelection then renderSelection(selection)
      else ""
    }
  }

  datatype QueryResultAction = QueryResultAction(
    id: string,
    name: string,
    icon: WoxImage,
    isDefault: bool,
    preventHideAfterAction: bool,
    action: CallbackRef)

  datatype QueryResultActionUI = QueryResultActionUI(
    id: string,
    name: string,
    icon: WoxImage,
    isDefault: bool,
    preventHideAfterAction: bool)

  datatype QueryResultUI = QueryResultUI(
    queryId: string,
    id: string,
    title: string,
    subTitle: string,
    icon: WoxImage,
    preview: WoxPreview,
    score: Int64,
    contextData: string,
    actions: seq<QueryResultActionUI>,
    refreshInterval: Int64)

  datatype QueryResult = QueryResult(
    id: string,
    title: string,
    subTitle: string,
    icon: WoxImage,
    preview: WoxPreview,
    score: Int64,
    contextData: string,
    actions: seq<QueryResultAction>,
    refreshInterval: Int64,
    onRefresh: CallbackRef)
  {
    /** The form of a result sent to the user interface: every displayed field
        copied, each action projected in place, callbacks dropped, and the
        query id left empty for the caller to fill in. */
    function ToUI(): (ui: QueryResultUI)
      ensures ui.queryId == ""
      ensures ui.id == id && ui.title == title && ui.subTitle == subTitle
      ensures ui.icon == icon && ui.preview == preview
      ensures ui.score == score && ui.contextData == contextData
      ensures ui.refreshInterval == refreshInterval
      ensures |ui.actions| == |actions|
      ensures forall i :: 0 <= i < |actions| ==>
        && ui.actions[i].id == actions[i].id
        && ui.actions[i].name == actions[i].name
        && ui.actions[i].icon == actions[i].icon
        && ui.actions[i].isDefault == actions[i].isDefault
        && ui.actions[i].preventHideAfterAction == actions[i].preventHideAfterAction
    {
      QueryResultUI(
        "", id, title, subTitle, icon, preview, score, contextData,
        seq(|actions|, i requires 0 <= i < |actions| => ActionToUI(actions[i])),
        refreshInterval)
    }
  }

  /** The UI form of one action: everything but its callback. */
  function ActionToUI(a: QueryResultAction): (ui: QueryResultActionUI)
    ensures ui.id == a.id && ui.name == a.name && ui.icon == a.icon
    ensures ui.isDefault == a.isDefault && ui.preventHideAfterAction == a.preventHideAfterAction
  {
    QueryResultActionUI(a.id, a.name, a.icon, a.isDefault, a.preventHideAfterAction)
  }

  /** The default action of a non-empty action list: the first one marked
      default, or the first action when none is marked. */
  function DefaultActionIndex<A>(actions: seq<A>, isDefault: A -> bool): (k: nat)
    requires |actions| > 0
    ensures k < |actions|
    ensures forall j :: 0 <= j < k ==> !isDefault(actions[j])
    ensures isDefault(actions[k]) || (k == 0 && forall j :: 0 <= j < |actions| ==> !isDefault(actions[j]))
    decreases |actions|
  {
    if isDefault(actions[0]) || |actions| == 1 then 0
    else
      var k := DefaultActionIndex(actions[1..], isDefault);
      if isDefault(actions[1..][k]) then k + 1 else 0
  }

  /** The user interface picks the same default action as the result declares:
      the action at the same position, with the same id. */
  lemma ToUIKeepsDefaultAction(r: QueryResult)
    requires |r.actions| > 0
    ensures var ui := r.ToUI();
      var k := DefaultActionIndex(r.actions, (a: QueryResultAction) => a.isDefault);
      && DefaultActionIndex(ui.actions, (a: QueryResultActionUI) => a.isDefault) == k
      && ui.actions[k].id == r.actions[k].id
  {
  }

  // ---------------------------------------------------------------------------
  // Parsing typed input

  /** `lo.Find` over the plugin instances: the first one whose trigger keywords
      contain `keyword`. */
  function FindByTriggerKeyword(instances: seq<PluginInstance>, keyword: string): (found: Option<PluginInstance>)
    ensures found.None? <==> forall i :: 0 <= i < |instances| ==> keyword !in instances[i].triggerKeywords
    ensures found.Some? ==> found.value in instances && keyword in found.value.triggerKeywords
    decreases |instances|
  {
    if |instances| == 0 then None
    else if keyword in instances[0].triggerKeywords then Some(instances[0])
    else
      var found := FindByTriggerKeyword(instances[1..], keyword);
      assert forall i :: 1 <= i < |instances| ==> instances[i] == instances[1..][i - 1];
      found
  }

  /** `lo.ContainsBy` over a plugin's query commands: some command is called
      `name`. */
  predicate HasCommand(commands: seq<MetadataCommand>, name: string): (found: bool)
    ensures found <==> exists i :: 0 <= i < |commands| && commands[i].command == name
    decreases |commands|
  {
    if |commands| == 0 then false
    else if commands[0].command == name then true
    else
      var found := HasCommand(commands[1..], name);
      assert forall i :: 1 <= i < |commands| ==> commands[i] == commands[1..][i - 1];
      found
  }

  /** The parser's routing condition, stated without the search: the input
      contains a space and some plugin lists its first term as a trigger keyword. */
  ghost predicate IsRouted(query: string, instances: seq<PluginInstance>) {
    && ' ' in query
    && exists i :: 0 <= i < |instances| && Split(query, ' ')[0] in instances[i].triggerKeywords
  }

  /** `instances[i]` is the first plugin that lists `keyword`. */
  ghost predicate IsFirstWithKeyword(instances: seq<PluginInstance>, keyword: string, i: int) {
    && 0 <= i < |instances|
    && keyword in instances[i].triggerKeywords
    && forall j :: 0 <= j < i ==> keyword !in instances[j].triggerKeywords
  }

  /** Parses typed input against the plugin instances, in order. Input whose
      first term is some plugin's trigger keyword, and which contains a space,
      is routed to the first such plugin; anything else is a global query whose
      search is the whole input. */
  function NewQueryInputWithPlugins(query: string, instances: seq<PluginInstance>): (q: Query)
    ensures q.queryType == QueryTypeInput && q.rawQuery == query && q.selection == ZeroSelection
    ensures ' ' !in query ==> q.triggerKeyword == "" && q.command == "" && q.search == query
  {
    var terms := Split(query, ' ');
    SplitSeparatorCases(query, ' ');
    if |terms| == 0 then
      // strings.Split never returns an empty slice for a non-empty separator
      assert false;
      Query(QueryTypeInput, query, "", "", "", ZeroSelection)
    else
      var possibleTriggerKeyword := terms[0];
      var mustContainSpace := ' ' in query;
      var pluginInstance := FindByTriggerKeyword(instances, possibleTriggerKeyword);
      var (triggerKeyword, command, search) :=
        if pluginInstance.Some? && mustContainSpace then
          if |terms| == 1 then
            // a space in the input gives at least two terms
            assert false;
            (possibleTriggerKeyword, "", "")
          else if |terms| == 2 then
            (possibleTriggerKeyword, "", terms[1])
          else if HasCommand(pluginInstance.value.queryCommands, terms[1]) then
            (possibleTriggerKeyword, terms[1], Join(terms[2..], ' '))
          else
            (possibleTriggerKeyword, "", Join(terms[1..], ' '))
        else
          ("", "", query);
      Query(QueryTypeInput, query, triggerKeyword, command, search, ZeroSelection)
  }

  // ---------------------------------------------------------------------------
  // Properties of the parser

  /** No plugin lists the empty string as a trigger keyword. */
  ghost predicate NoEmptyTriggerKeyword(instances: seq<PluginInstance>) {
    forall i :: 0 <= i < |instances| ==> "" !in instances[i].triggerKeywords
  }

  /** No plugin declares a command with an empty name. */
  ghost predicate NoEmptyCommandName(instances: seq<PluginInstance>) {
    forall i :: 0 <= i < |instances| ==> !HasCommand(instances[i].queryCommands, "")
  }

  /** The search picks the first plugin, in list order, that lists the keyword. */
  lemma {:induction false} FindReturnsFirst(instances: seq<PluginInstance>, keyword: string, i: int)
    requires IsFirstWithKeyword(instances, keyword, i)
    ensures FindByTriggerKeyword(instances, keyword) == Some(instances[i])
    decreases |instances|
  {
    if i > 0 {
      assert keyword !in instances[0].triggerKeywords;
      FindReturnsFirst(instances[1..], keyword, i - 1);
    }
  }

  /** When some plugin lists the keyword, there is a first one that does. */
  lemma {:induction false} FirstWithKeywordExists(instances: seq<PluginInstance>, keyword: string)
    requires exists i :: 0 <= i < |instances| && keyword in instances[i].triggerKeywords
    ensures exists i :: IsFirstWithKeyword(instances, keyword, i)
    decreases |instances|
  {
    if keyword in instances[0].triggerKeywords {
      assert IsFirstWithKeyword(instances, keyword, 0);
    } else {
      var k :| 0 <= k < |instances| && keyword in instances[k].triggerKeywords;
      assert keyword in instances[1..][k - 1].triggerKeywords;
      FirstWithKeywordExists(instances[1..], keyword);
      var i :| IsFirstWithKeyword(instances[1..], keyword, i);
      assert IsFirstWithKeyword(instances, keyword, i + 1);
    }
  }

  /** The routing rule: when the input contains a space and some plugin lists
      its first term, the trigger keyword is that term; otherwise the query is
      unrouted and its search is the whole input. */
  lemma ParseRoutingCondition(query: string, instances: seq<PluginInstance>)
    ensures var q := NewQueryInputWithPlugins(query, instances);
      && (IsRouted(query, instances) ==> q.triggerKeyword == Split(query, ' ')[0])
      && (!IsRouted(query, instances) ==> q.triggerKeyword == "" && q.command == "" && q.search == query)
  {
  }

  /** With exactly two terms the second one is the search, never a command,
      even when the plugin declares a command of that name. */
  lemma ParseTwoTerms(query: string, instances: seq<PluginInstance>)
    requires |Split(query, ' ')| == 2
    requires exists i :: 0 <= i < |instances| && Split(query, ' ')[0] in instances[i].triggerKeywords
    ensures var q := NewQueryInputWithPlugins(query, instances);
      && q.triggerKeyword == Split(query, ' ')[0]
      && q.command == ""
      && q.search == Split(query, ' ')[1]
  {
    SplitSeparatorCases(query, ' ');
  }

  /** With three or more terms the second one is taken as the command when the
      first plugin listing the trigger keyword declares it, and the search is
      then the rest of the terms joined back with single spaces; otherwise the
      command is empty and the search is every term after the keyword. */
  lemma ParseCommandOrSearch(query: string, instances: seq<PluginInstance>, i: int)
    requires |Split(query, ' ')| >= 3
    requires IsFirstWithKeyword(instances, Split(query, ' ')[0], i)
    ensures var q := NewQueryInputWithPlugins(query, instances); var terms := Split(query, ' ');
      && q.triggerKeyword == terms[0]
      && (HasCommand(instances[i].queryCommands, terms[1]) ==> q.command == terms[1] && q.search == Join(terms[2..], ' '))
      && (!HasCommand(instances[i].queryCommands, terms[1]) ==> q.command == "" && q.search == Join(terms[1..], ' '))
  {
    SplitSeparatorCases(query, ' ');
    FindReturnsFirst(instances, Split(query, ' ')[0], i);
  }

  /** A routed query is its trigger keyword, a space, the command and a space
      when a command was recognised, and the search: nothing is dropped or
      collapsed. When a plugin declares an empty command name, a recognised
      empty command leaves two spaces between keyword and search. */
  lemma RoutedQueryReassembles(query: string, instances: seq<PluginInstance>)
    requires IsRouted(query, instances)
    ensures var q := NewQueryInputWithPlugins(query, instances);
      && (q.command != "" ==> query == q.triggerKeyword + " " + q.command + " " + q.search)
      && (q.command == "" ==> query == q.triggerKeyword + " " + q.search || query == q.triggerKeyword + "  " + q.search)
      && (NoEmptyCommandName(instances) ==>
            query == q.triggerKeyword + " " + (if q.command != "" then q.command + " " else "") + q.search)
  {
    SplitSeparatorCases(query, ' ');
    var terms := Split(query, ' ');
    FirstWithKeywordExists(instances, terms[0]);
    var i :| IsFirstWithKeyword(instances, terms[0], i);
    if |terms| == 2 {
      ReassembleTwoTerms(query, instances);
    } else {
      ReassembleThreeOrMoreTerms(query, instances, i);
    }
  }

  /** Reassembly of a routed query with two terms: keyword, space, search. */
  lemma ReassembleTwoTerms(query: string, instances: seq<PluginInstance>)
    requires IsRouted(query, instances)
    requires |Split(query, ' ')| == 2
    ensures var q := NewQueryInputWithPlugins(query, instances);
      q.command == "" && query == q.triggerKeyword + " " + q.search
  {
    var terms := Split(query, ' ');
    SplitFirstAndRest(query, ' ');
    ParseTwoTerms(query, instances);
    assert terms[1..] == [terms[1]];
  }

  /** Reassembly of a routed query with three or more terms: keyword, space,
      then the recognised command and a space, then the search. */
  lemma ReassembleThreeOrMoreTerms(query: string, instances: seq<PluginInstance>, i: int)
    requires |Split(query, ' ')| >= 3
    requires IsFirstWithKeyword(instances, Split(query, ' ')[0], i)
    ensures var q := NewQueryInputWithPlugins(query, instances); var terms := Split(query, ' ');
      && (HasCommand(instances[i].queryCommands, terms[1]) ==>
            q.command == terms[1] && query == q.triggerKeyword + " " + q.command + " " + q.search)
      && (!HasCommand(instances[i].queryCommands, terms[1]) ==>
            q.command == "" && query == q.triggerKeyword + " " + q.search)
  {
    var terms := Split(query, ' ');
    SplitSeparatorCases(query, ' ');
    SplitFirstAndRest(query, ' ');
    ParseCommandOrSearch(query, instances, i);
    assert terms[1..][1..] == terms[2..];
  }

  /** A parsed query is global exactly when it was not routed, or was routed
      by a plugin listing an empty trigger keyword on input starting with a
      space; with no empty trigger keyword, exactly when it was not routed. */
  lemma ParsedQueryGlobalIffNotRouted(query: string, instances: seq<PluginInstance>)
    ensures var q := NewQueryInputWithPlugins(query, instances);
      && (q.IsGlobalQuery() <==> !IsRouted(query, instances) || Split(query, ' ')[0] == "")
      && (NoEmptyTriggerKeyword(instances) ==> (q.IsGlobalQuery() <==> !IsRouted(query, instances)))
  {
    ParseRoutingCondition(query, instances);
  }

  /** The text of a parsed query is the input it was parsed from, whatever
      the plugins and however selections are rendered. */
  lemma ParsedQueryStringIsInput(query: string, instances: seq<PluginInstance>, render: Selection -> string)
    ensures NewQueryInputWithPlugins(query, instances).String(render) == query
  {
  }

  /** "<keyword> <command> <rest>" runs the command with search "<rest>" when
      the first plugin listing the keyword declares the command; the rest may
      itself contain spaces, empty terms included. */
  lemma {:induction false} ParseKeywordCommandRest(
    keyword: string, command: string, rest: string, instances: seq<PluginInstance>, i: int)
    requires ' ' !in keyword && ' ' !in command
    requires IsFirstWithKeyword(instances, keyword, i)
    requires HasCommand(instances[i].queryCommands, command)
    ensures var query := keyword + " " + command + " " + rest;
      NewQueryInputWithPlugins(query, instances)
        == Query(QueryTypeInput, query, keyword, command, rest, ZeroSelection)
  {
    var query := keyword + " " + command + " " + rest;
    SplitTwoPieces(keyword, command, rest);
    var terms := Split(query, ' ');
    assert terms[0] == keyword && terms[1] == command;
    JoinSplit(rest, ' ');
    ParseCommandOrSearch(query, instances, i);
  }

  /** The terms of "<keyword> <command> <rest>" are the keyword, the command
      and the terms of the rest. */
  lemma SplitTwoPieces(keyword: string, command: string, rest: string)
    requires ' ' !in keyword && ' ' !in command
    ensures var terms := Split(keyword + " " + command + " " + rest, ' ');
      |terms| >= 3 && terms[0] == keyword && terms[1] == command && terms[2..] == Split(rest, ' ')
  {
    SplitAfterPiece(command, rest, ' ');
    SplitAfterPiece(keyword, command + " " + rest, ' ');
    assert keyword + " " + command + " " + rest == keyword + " " + (command + " " + rest);
  }

  /** "<keyword> <word>" searches for "<word>": a single word after the
      keyword is never taken as a command. */
  lemma ParseKeywordWord(keyword: string, word: string, instances: seq<PluginInstance>)
    requires ' ' !in keyword && ' ' !in word
    requires exists i :: 0 <= i < |instances| && keyword in instances[i].triggerKeywords
    ensures var query := keyword + " " + word;
      NewQueryInputWithPlugins(query, instances)
        == Query(QueryTypeInput, query, keyword, "", word, ZeroSelection)
  {
    SplitSeparatorCases(word, ' ');
    SplitAfterPiece(keyword, word, ' ');
    ParseTwoTerms(keyword + " " + word, instances);
  }

  /** A plugin with trigger keyword "wpm" that declares the command "install". */
  function Wpm(): PluginInstance {
    PluginInstance(["wpm"], [MetadataCommand("install")])
  }

  /** "wpm" alone has no space: it is a global search for "wpm". */
  lemma ExampleBareKeywordIsSearch()
    ensures NewQueryInputWithPlugins("wpm", [Wpm()])
      == Query(QueryTypeInput, "wpm", "", "", "wpm", ZeroSelection)
  {
  }

  /** "wpm " (keyword and one space) is routed with empty command and search. */
  lemma ExampleKeywordAndSpace()
    ensures NewQueryInputWithPlugins("wpm ", [Wpm()])
      == Query(QueryTypeInput, "wpm ", "wpm", "", "", ZeroSelection)
  {
    SplitAfterPiece("wpm", "", ' ');
    assert "wpm " == "wpm" + " " + "";
  }

  /** Empty input is a global query with everything empty, whatever the plugins. */
  lemma ExampleEmptyInput(instances: seq<PluginInstance>)
    ensures NewQueryInputWithPlugins("", instances)
      == Query(QueryTypeInput, "", "", "", "", ZeroSelection)
  {
  }
}
