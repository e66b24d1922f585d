# Wox query parsing, modelled in Dafny

This project models the query core of the Wox launcher's plugin package
(`Wox/plugin/query.go`). It covers:

- the records a query and its results travel in (`Query`, `QueryResult`,
  `QueryResultAction`, `QueryResultUI`, `QueryResultActionUI`);
- the parser `newQueryInputWithPlugins`. It splits the typed text on single
  spaces. If the first term is a trigger keyword of some plugin and the text
  contains a space, the query is routed to the first such plugin. Otherwise it
  is a global query whose search is the whole text. A routed query with three
  or more terms uses its second term as a command when that plugin declares it;
  a routed query with exactly two terms always uses its second term as the
  search;
- `Query.IsGlobalQuery`, `Query.String` and `QueryResult.ToUI`.

Three modules:

- `Wrappers` holds `Option`.
- `GoStrings` holds Go's `strings.Split` and `strings.Join` for a
  one-character separator. It proves that each inverts the other.
- `Plugin` follows `query.go`: the records, the four operations, and lemmas
  about the parser.

Everything in the source file is pure, so the model is functions and lemmas.

The source has two branches that cannot run, and the model shows why:

- `strings.Split` never returns an empty slice: `Split("", " ")` is `[""]`.
  So the `len(terms) == 0` branch is dead, and empty input goes through the
  unrouted branch.
- A routed query contains a space, so it has at least two terms. So the
  routed `len(terms) == 1` branch is dead too.

Both branches are `assert false` in `Plugin.NewQueryInputWithPlugins`. The
first is backed by the contract of `GoStrings.Split` (never an empty list), the
second by the lemma `GoStrings.SplitSeparatorCases` (a string with the
separator has two or more pieces). The source gives the routed one-term branch an empty
command and an empty search (query.go:186-189), but the branch never runs.
Input made only of a trigger keyword and one space ("wpm ") splits into two
terms. It is routed with an empty search.

Two corner cases of the plugin metadata shape the lemmas:

- A plugin that lists the empty string as a trigger keyword routes input that
  starts with a space. The resulting query has trigger keyword "", so
  `IsGlobalQuery` holds although the query was routed. "Global iff not routed"
  therefore holds when no plugin lists an empty trigger keyword.
  `ParsedQueryGlobalIffNotRouted` states both the general and the restricted
  form.
- A plugin that declares a command with an empty name makes a recognised
  command "" indistinguishable from no command. The raw query then has two
  spaces where the simple reassembly has one. `RoutedQueryReassembles` states
  the general form, and the simple form when no command name is empty.

## Model

| member | source | states |
|---|---|---|
| `GoStrings.Split` | Wox/plugin/query.go:166 | splitting on a separator never gives an empty list, and no piece contains the separator |
| `GoStrings.SplitSeparatorCases` | Wox/plugin/query.go:166 | a string without the separator splits into itself alone, and a string with the separator splits into two or more pieces (both directions) |
| `GoStrings.SplitFirstAndRest` | Wox/plugin/query.go:166 | a string containing the separator is its first piece, the separator, and the join of the remaining pieces |
| `GoStrings.JoinSplit` | Wox/plugin/query.go:166 | joining the pieces of a split with the same separator gives back the input exactly, consecutive separators included |
| `GoStrings.SplitJoin` | Wox/plugin/query.go:202-206 | splitting the join of one or more separator-free parts gives back the parts |
| `GoStrings.Join` | Wox/plugin/query.go:202-206 | the result has at least \|parts\| - 1 characters (one per separator); `JoinSplit` and `SplitJoin` state that it inverts Split |
| `GoStrings.SplitAfterPiece` | Wox/plugin/query.go:166 | a separator-free piece followed by the separator splits off as the first term, ahead of the pieces of the remainder |
| `Plugin.Query.IsGlobalQuery` | Wox/plugin/query.go:54-56 | a query is global exactly when it is an input query and its trigger keyword is empty |
| `Plugin.Query.String` | Wox/plugin/query.go:58-66 | the text of a query is its raw input for input queries, the selection's own rendering for selection queries, and "" for any other type |
| `Plugin.ParsedQueryStringIsInput` | Wox/plugin/query.go:58-61 | the text of any parsed query is exactly the input it was parsed from, whatever the plugins |
| `Plugin.ParsedQueryGlobalIffNotRouted` | Wox/plugin/query.go:54-56 | a parsed query is global iff it was not routed or its routing keyword was empty; when no plugin lists an empty trigger keyword, iff it was not routed |
| `Plugin.QueryResult.ToUI` | Wox/plugin/query.go:109-129 | the UI form copies id, title, subtitle, icon, preview, score, context data and refresh interval unchanged, leaves the query id empty, and maps the actions one-to-one in order, keeping each one's id, name, icon, default flag and hide flag |
| `Plugin.ActionToUI` | Wox/plugin/query.go:119-125 | the UI form of an action keeps its id, name, icon, default flag and hide flag, and drops its callback |
| `Plugin.DefaultActionIndex` | Wox/plugin/query.go:96-97 | the default action is the first action marked default, or the first action when none is marked (see "## Left out" for where this rule comes from) |
| `Plugin.ToUIKeepsDefaultAction` | Wox/plugin/query.go:96-97 | the UI form of a result has the same default action (same position, same id) as the result |
| `Plugin.FindByTriggerKeyword` | Wox/plugin/query.go:179-181 | the search finds nothing iff no plugin lists the keyword; what it finds is one of the plugins and lists the keyword |
| `Plugin.FindReturnsFirst` | Wox/plugin/query.go:179-181 | the search returns the first plugin, in list order, that lists the keyword |
| `Plugin.FirstWithKeywordExists` | Wox/plugin/query.go:179-182 | when some plugin lists the keyword, a first such plugin exists |
| `Plugin.HasCommand` | Wox/plugin/query.go:197-199 | the scan over a plugin's query commands succeeds exactly when some command has the given name |
| `Plugin.NewQueryInputWithPlugins` | Wox/plugin/query.go:165-224 | the result is always an input query whose raw query is the input verbatim and whose selection is the zero value; input without a space is never routed (empty keyword and command, search equal to the input), whatever the plugins |
| `Plugin.ParseRoutingCondition` | Wox/plugin/query.go:176-215 | when the input has a space and some plugin lists its first term, the trigger keyword is that term; otherwise keyword and command are empty and the search is the whole input |
| `Plugin.ParseTwoTerms` | Wox/plugin/query.go:191-194 | with exactly two terms and a plugin listing the first, the command is empty and the search is the second term, even when it names a declared command |
| `Plugin.ParseCommandOrSearch` | Wox/plugin/query.go:195-207 | with three or more terms, the second term is taken as the command when the first plugin listing the keyword declares it, and the search is then the remaining terms joined by single spaces; otherwise the command is empty and the search is all terms after the keyword joined |
| `Plugin.RoutedQueryReassembles` | Wox/plugin/query.go:182-209 | a routed query equals keyword, space, command and space when a command was recognised, then the search; with an empty declared command name, two spaces may stand where the command was |
| `Plugin.ReassembleTwoTerms` | Wox/plugin/query.go:191-194 | a routed query with two terms has no command and equals keyword, space, search |
| `Plugin.ReassembleThreeOrMoreTerms` | Wox/plugin/query.go:195-207 | with three or more terms, a declared second term is the command and the query equals keyword, space, command, space, search; otherwise there is no command and the query equals keyword, space, search |
| `Plugin.ParseKeywordCommandRest` | Wox/plugin/query.go:195-202 | "keyword command rest" parses to that keyword, that command and search "rest", for any rest (spaces included), when the first plugin listing the keyword declares the command |
| `Plugin.SplitTwoPieces` | Wox/plugin/query.go:166 | the terms of "keyword command rest" are the keyword, the command, and the terms of the rest |
| `Plugin.ParseKeywordWord` | Wox/plugin/query.go:191-194 | "keyword word" parses to that keyword, no command and search "word" |
| `Plugin.ExampleBareKeywordIsSearch` | Wox/plugin/query.go:210-215 | "wpm" alone, with a plugin whose trigger keyword is "wpm", is a global search for "wpm" |
| `Plugin.ExampleKeywordAndSpace` | Wox/plugin/query.go:191-194 | "wpm " is routed to "wpm" with empty command and empty search |
| `Plugin.ExampleEmptyInput` | Wox/plugin/query.go:210-215 | empty input, which the split at query.go:166 turns into one empty term, gives an input query with every field empty, whatever the plugins |

## Left out

- The query dispatch loop (`handleQuery` in `Wox/ui/ui_impl.go`) is not part of this model. It waits on a result channel, a done channel and a 10-second timer, and it calls a plugin manager that is not among these files.
- Result caching and action invocation are not part of this model. `QueryResultCache` is only a record in `query.go`, and the code that fills and reads it is elsewhere. `ActionContext` is only the argument record of action callbacks. Neither is modelled.
- The refresh-interval rounding to a multiple of 100 is only described in a comment in `query.go`. Nothing in the file implements it, and `ToUI` passes the interval through unchanged, so the model does too.
- Callbacks (`OnRefresh`, `QueryResultAction.Action`) are function values in Go. The model keeps them only as an identity (`CallbackRef`) and never calls them.
- `WoxImage`, `WoxPreview` and the content of a selection are opaque types. `util.Selection.String()` is code outside this file, so `Query.String` takes the rendering of a selection as a parameter.
- `Instance.GetTriggerKeywords` and `Instance.GetQueryCommands` are not part of this model. A plugin instance is modelled as the two lists they return. A declared command is modelled by its name only, because the parser reads no other field.
- `Score` is Go's `int64`, and `RefreshInterval` is Go's `int`. Both are modelled as a 64-bit integer type, which assumes a 64-bit platform. No arithmetic is done on either.
- The Tauri window shell (`main.rs`) and the Python plugin host (`host.py`) are not part of this model. They do process, window and websocket I/O only.
- Concrete examples whose input is longer than a few characters are stated as the general lemmas `Plugin.ParseKeywordCommandRest` and `Plugin.ParseKeywordWord`. For example, "wpm install foo" is keyword "wpm", command "install" and rest "foo".
- Plugin.DefaultActionIndex: no code in `query.go` picks a default action. The rule comes only from the documentation comment on `IsDefault` (query.go:96-97). That comment says there can be only one default action, and it does not say what happens when several are marked. Picking the first marked action in that case is this model's own choice.
- Strings: a Go string is a sequence of bytes, and the model uses a sequence of characters. Splitting on the ASCII space gives the same pieces for any valid UTF-8 input, because no byte of a multi-byte UTF-8 character equals the space byte.
