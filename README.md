# GraphQL Playground plugin — a Dafny model

This project models the decision logic of a Sublime Text plugin that runs
GraphQL operations from an open buffer and shows the response in a companion
view. The editor, the network and the JSON codec are taken as inputs; what is
modelled and proved is what the plugin itself decides:

- **Sidecar path** (`paths.dfy`, module `Paths`): `getQueryVariablesFile` with
  the POSIX `os.path` functions it uses (`basename`, `dirname`, `splitext`,
  `join`). The sidecar of a saved file lies in the same directory, and its
  name is the file's root (only the last extension removed, leading dots not
  treated as separators) followed by `.var.json`.
- **Operation headers** (`header.dfy`, module `OperationHeader`): the pattern
  `(?:query|mutation) (\w*) ?` under `re.match`. The match is anchored and
  case-sensitive, it needs exactly one space after the keyword, and the name
  it captures is the longest run of word characters (possibly empty).
- **Quick run** (`quickrun.dfy`, module `QuickRun`): the command that runs the
  operation under the cursor. It is a method with the source's loop over the
  reversed lines above the cursor. The cursor's own line wins; otherwise the
  closest header above it wins. Nothing is dispatched without a selection,
  a header or a window.
- **Annotations** (`annotations.dfy`, module `Annotations`): a `View` class
  holds the decorations as a map from key to regions and link. The class
  `BuildAnnotationsCommand` holds the key list, which the plugin keeps at
  class level and shares across views. A rebuild erases every recorded key,
  then adds `graphql_runner_annotations_<i>` for match `i`. The host timer
  between the two steps becomes two sequential method calls. After a
  rebuild the view carries exactly one annotation per match, other
  decorations are untouched, and a second rebuild changes nothing. Keys are
  numbered with `str(i)` (`decimal.dfy`, module `Decimal`).
- **Commands** (`commands.dfy`, module `Commands`): `graphql_run_query` and its
  POST, `graphql_print_response`, `graphql_prepare_view` (placeholder only in
  an empty view), the response title, the variables resolution (open buffer,
  then disk while still `{}`) and `graphql_open_view`, which ties them
  together. The response view is a class whose text and title the commands
  update.
- **Listener** (`listener.dfy`, module `Listener`; `syntax.dfy`, module
  `Syntax`): the syntax gate (a view with no syntax passes), the reactions to
  load, modification and activation, and `on_query_context`.

Behaviour of the plugin worth noting:

- The header pattern is case-sensitive under `re.match` in the quick run.
  It is case-insensitive only in the host search that feeds the annotations.
- Exactly one space must follow the keyword.
- The recorded key list only grows; it is never cleared or replaced.
- The placeholder reads `// Running <name>...`, with `Query` when no name is given.
- A quick run on an anonymous header passes the empty name, not `None`. The
  title is then `GraphQL: ` (`Commands.QuickRunAnonymousTitle`).
- `graphql_open_view` always passes a `config` key. Without a configuration
  the run therefore passes the missing-key check. It then fails in the
  worker when the `None` configuration is subscripted, and no request is
  sent (`Commands.OpenView`).
- A variables file that does not decode raises, which aborts
  `graphql_open_view` after the response view was opened and before its
  title is set. The model gives this as the outcome `VariablesParseError`.

## Model

| member | source | states |
|---|---|---|
| Paths.QueryVariablesFile | graphql_playground.py:11-15 | there is no sidecar path exactly when the buffer has no file name |
| Paths.QueryVariablesFileIsSibling | graphql_playground.py:11-22 | the sidecar's directory is the file's directory and its name is the file's root followed by `.var.json` |
| Paths.SplitExtRootRemovesLastExtension | graphql_playground.py:17-20 | the root is the file name itself or the name with exactly its last extension cut; it is cut exactly when some dot follows a non-dot character |
| Paths.SplitExtRootOfExtension | graphql_playground.py:17-20 | only the last extension goes: the root of `stem.ext` is `stem`, inner dots kept |
| Paths.SplitExtRootOfDotName | graphql_playground.py:17-20 | leading dots are not extension separators: `.graphql` is its own root |
| Paths.VariablesFileNameIsPlain | graphql_playground.py:17-20 | the sidecar name of a plain file name has no '/' and is not empty |
| Paths.JoinSplits | graphql_playground.py:22 | joining a directory with a file name and splitting the result gives both back |
| Paths.Basename | graphql_playground.py:18 | the base name is the suffix of the path after its last '/': it has no '/', and a '/' precedes it whenever it is not the whole path |
| Paths.Dirname | graphql_playground.py:22 | the directory is the path up to its last '/' with trailing slashes stripped, kept whole when it is slashes only; it is empty, all slashes, or ends in something other than '/' |
| OperationHeader.WordRun | graphql_playground.py:198 | the capture `(\w*)` is the longest prefix made of word characters |
| OperationHeader.HeaderCharacterization | graphql_playground.py:198 | a line is a header naming `n` exactly when it starts with `query ` or `mutation ` followed by the maximal word run `n` |
| OperationHeader.HeaderIffKeyword | graphql_playground.py:198 | a line is a header exactly when it starts with `query ` or `mutation ` |
| OperationHeader.NotHeaders | graphql_playground.py:198 | `Query X`, `query{` and an indented header do not match |
| OperationHeader.WordRunOfMaximal | graphql_playground.py:198 | a run of word characters that the text does not continue is exactly what is captured |
| OperationHeader.HeaderStopsAtLineBreak | graphql_playground.py:197-198 | text after a line break never changes what a line captures |
| QuickRun.HeaderAboveNone | graphql_playground.py:199-210 | the upward search finds nothing exactly when no line above is a header |
| QuickRun.HeaderAboveFound | graphql_playground.py:199-207 | what the upward search finds is the capture of a header line with no header between it and the cursor |
| QuickRun.HeaderAboveIsClosest | graphql_playground.py:199-207 | the upward search finds a header exactly when one exists above, and returns the closest one |
| QuickRun.NearestHeaderPrefersCursorLine | graphql_playground.py:198-204 | the cursor's line wins when it is a header, otherwise the search above decides |
| QuickRun.HeaderOfRegion | graphql_playground.py:197-198 | matching the cursor's line region is matching its first line |
| QuickRun.QuickRunQuery | graphql_playground.py:191-220 | the loop over the reversed lines above the cursor dispatches what `QuickRunResult` gives: nothing without a selection, a header or a window, else the nearest header's capture for this view |
| QuickRun.QuickRunDispatchesClosestHeader | graphql_playground.py:192-220 | with a selection, something is dispatched exactly when there is a window and a header at or above the cursor, and it names the closest one |
| QuickRun.AnonymousHeaderDispatchesEmptyName | graphql_playground.py:217-220 | an anonymous header is dispatched with the empty name, not `None` |
| Decimal.ParseNatToString | graphql_playground.py:173 | the index in a key reads back as that index |
| Decimal.NatToStringInjective | graphql_playground.py:173 | different indices print differently |
| Annotations.KeyInjective | graphql_playground.py:173 | different match indices give different keys |
| Annotations.KeyIsAnnotationKey | graphql_playground.py:173 | every key starts with `graphql_runner_annotations_` |
| Annotations.PayloadFor | graphql_playground.py:176-182 | the link carries the source view and a name that is `None` exactly for an empty capture |
| Annotations.AddedAt | graphql_playground.py:172-187 | after the loop, key `i` holds exactly the region of match `i`, and every other key is as before |
| Annotations.KeysBelowCount | graphql_playground.py:172-174 | a build over `n` matches uses `n` distinct keys |
| Annotations.RebuildExact | graphql_playground.py:145-187 | after erase and build the annotation keys are exactly keys `0..n-1`, each with its match's region, and all other decorations are unchanged |
| Annotations.RebuildBounded | graphql_playground.py:145-187 | a rebuild leaves exactly as many annotations as there are matches |
| Annotations.RebuildTracked | graphql_playground.py:172-174 | after a rebuild the shared key list again records every annotation on the view |
| Annotations.RebuildIdempotent | graphql_playground.py:145-187 | a second rebuild on unchanged text gives the same decorations |
| Annotations.BuildAnnotationsCommand.Run | graphql_playground.py:140-148 | outside the syntax gate nothing changes; inside it every recorded key is erased |
| Annotations.BuildAnnotationsCommand.BuildAnnotations | graphql_playground.py:150-187 | appends keys `0..n-1` to the shared list and draws each match under its key |
| Annotations.BuildAnnotationsCommand.Rebuild | graphql_playground.py:140-187 | a rejected view leaves the key list as it was; a build appends exactly the keys `graphql_runner_annotations_0..n-1`; the view ends with one annotation per match and its other decorations untouched |
| Commands.RunQuery | graphql_playground.py:25-39 | no request without a `config` key; a `None` config fails; otherwise the name, query and variables go unchanged to the `schema` URL |
| Commands.ResponseContent | graphql_playground.py:40-45 | the decoded JSON body, or the raw text when it is not JSON |
| Commands.Title | graphql_playground.py:83-85 | `GraphQL` exactly for an anonymous operation, otherwise `GraphQL: ` followed by the name |
| Commands.TitleInjective | graphql_playground.py:83-85 | different operations get different titles |
| Commands.Placeholder | graphql_playground.py:64-70 | `// Running `, then the name or `Query`, then `...` |
| Commands.ResponseView.PrintResponse | graphql_playground.py:51-59 | without content the text is unchanged; otherwise the text is the encoded content, whatever was there |
| Commands.ResponseView.ReceiveResponse | graphql_playground.py:40-47 | the view shows the encoded JSON response, or the raw body encoded as a string |
| Commands.ResponseView.PrepareView | graphql_playground.py:63-72 | the placeholder is written only into an empty view, and the run is always forwarded |
| Commands.ResolvedVariables | graphql_playground.py:94-113 | `{}` without a path; an open sidecar that decodes to something other than `{}` wins; otherwise the disk decides, and with no file on disk the variables stay `{}`; a decode error aborts |
| Commands.ResolveVariables | graphql_playground.py:94-113 | computes those variables step by step, and reads the disk exactly when the path exists and the variables are still `{}` |
| Commands.FindView | graphql_playground.py:80 | the first view of the window with the requested id, or none |
| Commands.OpenView | graphql_playground.py:79-126 | sets the title and prepares the response view with the buffer's text, the resolved variables and the configuration; it stops earlier and leaves the view alone when a step fails; without a configuration the prepared run fails in the worker, not at the missing-key check |
| Commands.QuickRunAnonymousTitle | graphql_playground.py:217-220 | a quick run on an anonymous header gets title `GraphQL: ` and placeholder `// Running ...` |
| Listener.OnModified | graphql_playground.py:229-245 | annotations are rebuilt exactly for a view that passes the syntax gate and has a configuration |
| Listener.OnActivated | graphql_playground.py:247-252 | a view that passes the gate asks for its response view, then its variables view, forcing neither; any other view asks for nothing |
| Listener.OnQueryContext | graphql_playground.py:254-266 | `None` outside the plugin's prefix; `False` without a syntax or for another operator; for equal, whether "is GraphQL" equals the operand |
| Listener.NotEqualAnswersAsEqual | graphql_playground.py:260-264 | as written, not-equal answers exactly as equal does |
| Listener.NotEqualCounterexample | graphql_playground.py:263-264 | a GraphQL view asked "not equal to true" answers true |
| Listener.OnQueryContextCorrected | graphql_playground.py:254-266 | same answers as written except for not-equal on a view with a syntax, which negates equal; not-equal on a view without a syntax still answers false |
| Listener.CorrectedNotEqualNegatesEqual | graphql_playground.py:263-264 | with the correction, not-equal and equal give opposite answers |

`Annotations.BuildAnnotationsCommand.Rebuild` requires that the shared key
list records every annotation key on the view. A fresh command and a view
without annotations satisfy this, and every rebuild preserves it. It holds
as long as no other code draws under the `graphql_runner_annotations_`
prefix.

## Findings

| source | as written | input that shows it | evidently intended | confidence | as-written member | corrected member |
|---|---|---|---|---|---|---|
| graphql_playground.py:263-264 | for `OP_NOT_EQUAL` the listener returns `(syntax.name == "GraphQL") == operand`, the same test as for `OP_EQUAL` | key `graphql_playground.is_graphql`, a view with syntax `GraphQL`, operator not-equal, operand `true`: answers true | `(syntax.name == "GraphQL") != operand` | medium; not executed | Listener.OnQueryContext (with Listener.NotEqualCounterexample) | Listener.OnQueryContextCorrected (with Listener.CorrectedNotEqualNegatesEqual) |

## Left out

- `src/graphql_view_manager.py` is not part of this model. The commands
  `graphql_open_response_view` and `graphql_open_query_variables`, the
  registry's `get`, and `removeView` (called from `on_close`) are therefore
  not modelled. `Commands.OpenView` takes the response view the manager
  returns as an input.
- `graphql_config.py` is not part of this model. `readGraphqlConfig` becomes
  an input: the endpoint URL, or none.
- The HTTP POST and the response status are left out (network I/O).
  `Commands.RunQuery` ends at the request it would send. The response body
  is an input to `Commands.ResponseView.ReceiveResponse`.
- `set_timeout_async` and `set_timeout` become sequential calls
  (threads and timers). Overlapping erase and build steps from several
  quick edits are not modelled.
- `sublime.encode_value` and `decode_value` are function parameters (a
  library codec). A decode that raises is `None`. JSON numbers are integers
  only; floating point is left out.
- Opening and reading the sidecar file are taken as two maps: the live
  text of the open files and the content of the existing files.
- `view.find_all` is an input: the regions and captured names of its
  matches, with one name per region. Its case-insensitive, unanchored
  matching is host behaviour.
- The annotation HTML, its styles and draw flags, sheet selection and
  focus, `is_visible`, and `plugin_loaded` printing are left out (UI only).
- The variables view that `graphql_open_view` asks the manager to show
  (line 102) is left out (UI only).
- OperationHeader.IsWordChar: `\w` is ASCII letters, digits and `_`.
  Python 3 also counts other Unicode letters and digits.
- Paths: only POSIX path rules are modelled; Windows separators and drive
  letters are not.
- `view.lines(Region(0, line.a))` is modelled as the lines strictly above
  the cursor's line. The host may also return the cursor's line, but that
  line was already matched against the pattern, so the outcome is the same.
- Commands.RunQuery: the model always carries `operationName`, `query` and
  `variables`. The `KeyError` that a call without them would raise is left
  out, because every caller passes all three.
- Log messages (the invalid-JSON notice of line 45 and the missing
  configuration notice of line 236) are left out: console output only.
- `applies_to_primary_view_only` (lines 225-227) is left out: the model
  takes the listener's view as given and does not distinguish primary views
  from clones.
