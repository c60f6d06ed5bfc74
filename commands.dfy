/**
 * The text commands that open, prepare and fill the response view, and the
 * resolution of the query variables from the sidecar file.
 */
module Commands {
  import opened Wrappers
  import opened Json
  import opened Paths
  import opened QuickRun

  /** The `config` value handed to `graphql_run_query`: `None`, or a configuration with its endpoint. */
  datatype ConfigArg = NullConfig | Config(schema: string)

  /** Arguments of `graphql_run_query` and `graphql_prepare_view`; `config == None` is an absent key. */
  datatype RunArgs = RunArgs(operationName: Option<string>, query: string, variables: Json, config: Option<ConfigArg>)

  /** The JSON body posted to the endpoint. */
  datatype RequestBody = RequestBody(operationName: Option<string>, query: string, variables: Json)

  /**
   * What `graphql_run_query` does: nothing, fail in the worker because the
   * configuration is `None` (subscripting it raises), or post a body to a URL.
   */
  datatype RunOutcome = NoRequest | ConfigError | Post(url: string, body: RequestBody)

  /**
   * `GraphqlRunQueryCommand.run` and `sendRequest` up to the POST: no request
   * without a `config` key; otherwise the operation name, query and
   * variables go, unchanged, to the configuration's `schema` URL.
   */
  function RunQuery(args: RunArgs): (r: RunOutcome)
    ensures r.NoRequest? <==> args.config.None?
    ensures r.ConfigError? <==> args.config == Some(NullConfig)
    ensures r.Post? ==> args.config == Some(Config(r.url))
    ensures r.Post? ==> r.body.operationName == args.operationName && r.body.query == args.query && r.body.variables == args.variables
  {
    match args.config
    case None => NoRequest
    case Some(NullConfig) => ConfigError
    case Some(Config(url)) => Post(url, RequestBody(args.operationName, args.query, args.variables))
  }

  /** The response shown: the decoded JSON body, or the raw text when the body is not JSON. */
  function ResponseContent(body: string, decode: string -> Option<Json>): (r: Json)
    ensures decode(body).None? ==> r == Str(body)
    ensures decode(body).Some? ==> r == decode(body).value
  {
    match decode(body)
    case Some(v) => v
    case None => Str(body)
  }

  /** `fileTitle` in `GraphqlOpenViewCommand.run`. */
  function Title(operationName: Option<string>): (r: string)
    ensures r == "GraphQL" <==> operationName.None?
    ensures operationName.Some? ==> "GraphQL: " <= r && r[|"GraphQL: "|..] == operationName.value
  {
    match operationName
    case None => "GraphQL"
    case Some(name) => "GraphQL: " + name
  }

  /** Different operations get different titles. */
  lemma TitleInjective(a: Option<string>, b: Option<string>)
    requires Title(a) == Title(b)
    ensures a == b
  {
    if a.Some? && b.Some? {
      assert a.value == Title(a)[|"GraphQL: "|..] == b.value;
    }
  }

  const PlaceholderPrefix := "// Running "
  const PlaceholderSuffix := "..."

  /** `"// Running %s..."` with the operation name, "Query" for an anonymous run. */
  function Placeholder(operationName: Option<string>): (r: string)
    ensures |r| >= |PlaceholderPrefix| + |PlaceholderSuffix|
    ensures r[..|PlaceholderPrefix|] == PlaceholderPrefix && r[|r| - |PlaceholderSuffix|..] == PlaceholderSuffix
    ensures r[|PlaceholderPrefix|..|r| - |PlaceholderSuffix|] == if operationName.None? then "Query" else operationName.value
  {
    PlaceholderPrefix + operationName.GetOr("Query") + PlaceholderSuffix
  }

  /** The response view: its text buffer and its title. */
  class ResponseView {
    var text: string
    var name: string

    constructor (text: string)
      ensures this.text == text && name == ""
    {
      this.text := text;
      name := "";
    }

    /** `view.replace(edit, Region(a, b), s)` */
    method Replace(a: nat, b: nat, s: string)
      requires a <= b <= |text|
      modifies this`text
      ensures text == old(text)[..a] + s + old(text)[b..]
    {
      text := text[..a] + s + text[b..];
    }

    /** `view.set_name(title)` */
    method SetName(title: string)
      modifies this`name
      ensures name == title
    {
      name := title;
    }

    /**
     * `GraphqlPrintResponseCommand.run`: without `content` the view is left
     * alone; otherwise the whole buffer is replaced, so the text is the
     * encoded content whatever was there before.
     */
    method PrintResponse(content: Option<Json>, encode: Json -> string)
      modifies this`text
      ensures content.None? ==> text == old(text)
      ensures content.Some? ==> text == encode(content.value)
    {
      if content.None? {
        return;
      }
      Replace(0, |text|, encode(content.value));
    }

    /**
     * The end of `sendRequest`: the response body, decoded when it is JSON
     * and as raw text otherwise, is printed into the view.
     */
    method ReceiveResponse(body: string, decode: string -> Option<Json>, encode: Json -> string)
      modifies this`text
      ensures decode(body).Some? ==> text == encode(decode(body).value)
      ensures decode(body).None? ==> text == encode(Str(body))
    {
      PrintResponse(Some(ResponseContent(body, decode)), encode);
    }

    /**
     * `GraphqlPrepareViewCommand.run`: the placeholder is written only into
     * an empty view, and the run is always forwarded with the same arguments.
     */
    method PrepareView(args: RunArgs) returns (run: RunOutcome)
      modifies this`text
      ensures old(text) == [] ==> text == Placeholder(args.operationName)
      ensures old(text) != [] ==> text == old(text)
      ensures run == RunQuery(args)
    {
      var operationName := args.operationName.GetOr("Query");
      if |text| <= 0 {
        Replace(0, |text|, "// Running " + operationName + "...");
      }
      run := RunQuery(args);
    }
  }

  /** The outcome of reading the variables: a JSON value, or a decoding error that aborts the command. */
  datatype VariablesResult = Variables(value: Json) | ParseError

  /**
   * The variables of a run. `openFiles` holds the live text of every file
   * open in the window, `disk` the content of every existing file, both by
   * path; `decode` is the host's JSON decoder (None when it raises).
   */
  function ResolvedVariables(fileName: Option<string>, openFiles: map<string, string>, disk: map<string, string>,
                             decode: string -> Option<Json>): (r: VariablesResult)
    // an unsaved buffer has no sidecar and no variables
    ensures fileName.None? ==> r == Variables(EmptyObject)
    // an open sidecar that holds anything but {} wins over the disk
    ensures fileName.Some? ==> var path := QueryVariablesFile(fileName).value;
      (path in openFiles && decode(openFiles[path]).Some? && decode(openFiles[path]).value != EmptyObject ==>
         r == Variables(decode(openFiles[path]).value))
    // a sidecar that is not open, or decodes to {}, falls back to the disk
    ensures fileName.Some? ==> var path := QueryVariablesFile(fileName).value;
      ((path !in openFiles || decode(openFiles[path]) == Some(EmptyObject)) && path in disk ==>
         r == (if decode(disk[path]).Some? then Variables(decode(disk[path]).value) else ParseError))
    // a sidecar that is not open, or decodes to {}, and is not on disk leaves the variables {}
    ensures fileName.Some? ==> var path := QueryVariablesFile(fileName).value;
      ((path !in openFiles || decode(openFiles[path]) == Some(EmptyObject)) && path !in disk ==>
         r == Variables(EmptyObject))
    // a decoding error in the open sidecar aborts without looking at the disk
    ensures fileName.Some? ==> var path := QueryVariablesFile(fileName).value;
      (path in openFiles && decode(openFiles[path]).None? ==> r == ParseError)
  {
    match QueryVariablesFile(fileName)
    case None => Variables(EmptyObject)
    case Some(path) =>
      var live := if path in openFiles then decode(openFiles[path]) else Some(EmptyObject);
      match live
      case None => ParseError
      case Some(v) =>
        if v == EmptyObject && path in disk then
          match decode(disk[path])
          case None => ParseError
          case Some(w) => Variables(w)
        else Variables(v)
  }

  /**
   * The variables part of `GraphqlOpenViewCommand.run`, step by step:
   * start from {}, take the open sidecar's text if there is one, and read the
   * file on disk only while the variables are still {}.
   */
  method ResolveVariables(fileName: Option<string>, openFiles: map<string, string>, disk: map<string, string>,
                          decode: string -> Option<Json>)
    returns (r: VariablesResult, readDisk: bool)
    ensures r == ResolvedVariables(fileName, openFiles, disk, decode)
    ensures readDisk <==>
      (fileName.Some? &&
       var path := QueryVariablesFile(fileName).value;
       path in disk && (path !in openFiles || decode(openFiles[path]) == Some(EmptyObject)))
  {
    var variables := EmptyObject;
    readDisk := false;
    var variablesFile := QueryVariablesFile(fileName);
    if variablesFile.Some? {
      var path := variablesFile.value;
      if path in openFiles {
        var decoded := decode(openFiles[path]);
        if decoded.None? {
          return ParseError, false;
        }
        variables := decoded.value;
      }
      if variables == EmptyObject && path in disk {
        readDisk := true;
        var decoded := decode(disk[path]);
        if decoded.None? {
          return ParseError, true;
        }
        variables := decoded.value;
      }
    }
    r := Variables(variables);
  }

  /** A view of the window as `GraphqlOpenViewCommand` reads it. */
  datatype SourceView = SourceView(id: int, fileName: Option<string>, text: string)

  /** `next(v for v in views if v.id() == id)`: the first view with that id. */
  function FindView(views: seq<SourceView>, id: int): (r: Option<SourceView>)
    ensures r.None? <==> forall i :: 0 <= i < |views| ==> views[i].id != id
    ensures r.Some? ==> exists i :: 0 <= i < |views| && views[i] == r.value && r.value.id == id
                          && forall j :: 0 <= j < i ==> views[j].id != id
  {
    if |views| == 0 then None
    else if views[0].id == id then Some(views[0])
    else
      var r := FindView(views[1..], id);
      assert forall i :: 1 <= i < |views| ==> views[i] == views[1..][i - 1];
      r
  }

  /** How `GraphqlOpenViewCommand.run` ends. */
  datatype OpenViewOutcome = NoSuchView | NoResponseView | VariablesParseError | Prepared(run: RunOutcome)

  /**
   * `GraphqlOpenViewCommand.run`. The response view the manager returns after
   * it was asked to open one is `responseView` (null when there is none);
   * `config` is the endpoint the configuration names, if any.
   */
  method OpenView(args: OpenViewArgs, views: seq<SourceView>, responseView: ResponseView?,
                  openFiles: map<string, string>, disk: map<string, string>,
                  decode: string -> Option<Json>, config: Option<string>)
    returns (outcome: OpenViewOutcome)
    modifies responseView
    ensures FindView(views, args.view).None? ==> outcome == NoSuchView
    ensures FindView(views, args.view).Some? && responseView == null ==> outcome == NoResponseView
    ensures outcome.NoSuchView? || outcome.NoResponseView? || outcome.VariablesParseError? ==>
      responseView == null || (responseView.text == old(responseView.text) && responseView.name == old(responseView.name))
    ensures outcome.Prepared? ==>
      && FindView(views, args.view).Some? && responseView != null
      && var source := FindView(views, args.view).value;
      && ResolvedVariables(source.fileName, openFiles, disk, decode).Variables?
      && responseView.name == Title(args.operationName)
      && responseView.text == (if old(responseView.text) == [] then Placeholder(args.operationName) else old(responseView.text))
      && outcome.run == RunQuery(RunArgs(args.operationName, source.text,
                                         ResolvedVariables(source.fileName, openFiles, disk, decode).value,
                                         Some(if config.None? then NullConfig else Config(config.value))))
    ensures FindView(views, args.view).Some? && responseView != null ==>
      var variables := ResolvedVariables(FindView(views, args.view).value.fileName, openFiles, disk, decode);
      (variables.ParseError? ==> outcome == VariablesParseError) && (variables.Variables? ==> outcome.Prepared?)
    // the `config` key is always passed on, so without a configuration the
    // run gets past the missing-key check and fails in the worker
    ensures outcome.Prepared? && config.None? ==> outcome.run == ConfigError
  {
    var found := FindView(views, args.view);
    if found.None? {
      return NoSuchView;
    }
    var view := found.value;
    var fileTitle := Title(args.operationName);
    if responseView == null {
      return NoResponseView;
    }
    var variables, _ := ResolveVariables(view.fileName, openFiles, disk, decode);
    if variables.ParseError? {
      return VariablesParseError;
    }
    responseView.SetName(fileTitle);
    var query := view.text;
    var graphqlConfig := if config.None? then NullConfig else Config(config.value);
    var run := responseView.PrepareView(RunArgs(args.operationName, query, variables.value, Some(graphqlConfig)));
    outcome := Prepared(run);
  }

  /**
   * A quick run on an anonymous header passes the empty name, which gets the
   * title "GraphQL: " and the placeholder "// Running ..." rather than the
   * ones for an anonymous operation.
   */
  lemma QuickRunAnonymousTitle()
    ensures var d := QuickRunResult(["query {", "  user"], [Selection(1, 1)], true, 7);
      d.Some? && Title(d.value.operationName) == "GraphQL: " && Placeholder(d.value.operationName) == "// Running ..."
  {
    AnonymousHeaderDispatchesEmptyName();
  }
}
