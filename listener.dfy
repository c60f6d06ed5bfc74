/**
 * `GraphqlPlaygroundViewListener`: what the plugin does when a view is
 * loaded, modified or activated, and how it answers key-binding contexts.
 */
module Listener {
  import opened Wrappers
  import opened Json
  import opened Syntax

  /** The commands the listener runs on the view. */
  datatype ViewCommand = BuildAnnotations | OpenResponseView(force: bool) | OpenQueryVariables(force: bool)

  /** The key-binding context operators of the host. */
  datatype Operator = OpEqual | OpNotEqual | OpRegexMatch | OpNotRegexMatch | OpRegexContains | OpNotRegexContains

  /**
   * `_build_annotations`, run on load and on every modification: the
   * annotation command runs only for a view that passes the syntax gate and
   * has a configuration.
   */
  function OnModified(syntax: Option<string>, hasConfig: bool): (r: seq<ViewCommand>)
    ensures r == [BuildAnnotations] <==> GraphqlOrUnknown(syntax) && hasConfig
    ensures r != [BuildAnnotations] ==> r == []
  {
    if !GraphqlOrUnknown(syntax) then []
    else if !hasConfig then []
    else [BuildAnnotations]
  }

  /**
   * `on_activated`: for a view that passes the syntax gate, show the
   * response and variables views that already exist, never creating one.
   */
  function OnActivated(syntax: Option<string>): (r: seq<ViewCommand>)
    ensures forall c :: c in r ==> !c.BuildAnnotations? && !c.force
    ensures |r| == 0 <==> !GraphqlOrUnknown(syntax)
    ensures GraphqlOrUnknown(syntax) ==> r == [OpenResponseView(false), OpenQueryVariables(false)]
  {
    if !GraphqlOrUnknown(syntax) then []
    else [OpenResponseView(false), OpenQueryVariables(false)]
  }

  const ContextPrefix := "graphql_playground."

  /**
   * `on_query_context` as written: None for keys outside the plugin's
   * prefix, False without a syntax or for another operator, and for both
   * the equal and the not-equal operator whether "the syntax is GraphQL"
   * equals the operand.
   */
  function OnQueryContext(key: string, syntax: Option<string>, operator: Operator, operand: Json): (r: Option<bool>)
    ensures r.None? <==> !(ContextPrefix <= key)
    ensures ContextPrefix <= key && syntax.None? ==> r == Some(false)
    ensures ContextPrefix <= key && !(operator.OpEqual? || operator.OpNotEqual?) ==> r == Some(false)
    ensures ContextPrefix <= key && syntax.Some? && operator.OpEqual? ==>
      r == Some(BoolEquals(syntax.value == GraphqlSyntaxName, operand))
  {
    if !(ContextPrefix <= key) then None
    else if syntax.Some? && operator == OpEqual then Some(BoolEquals(syntax.value == GraphqlSyntaxName, operand))
    else if syntax.Some? && operator == OpNotEqual then Some(BoolEquals(syntax.value == GraphqlSyntaxName, operand))
    else Some(false)
  }

  /** As written, the not-equal operator answers exactly what the equal operator answers. */
  lemma NotEqualAnswersAsEqual(key: string, syntax: Option<string>, operand: Json)
    ensures OnQueryContext(key, syntax, OpNotEqual, operand) == OnQueryContext(key, syntax, OpEqual, operand)
  {
  }

  /**
   * A GraphQL view asked whether its GraphQL context is NOT equal to true
   * answers true.
   */
  lemma NotEqualCounterexample()
    ensures OnQueryContext("graphql_playground.is_graphql", Some("GraphQL"), OpNotEqual, Bool(true)) == Some(true)
  {
    assert ContextPrefix <= "graphql_playground.is_graphql";
  }

  /** `on_query_context` with the not-equal operator answering `!=`, as its name promises. */
  function OnQueryContextCorrected(key: string, syntax: Option<string>, operator: Operator, operand: Json): (r: Option<bool>)
    ensures r.None? <==> !(ContextPrefix <= key)
    ensures operator != OpNotEqual || syntax.None? ==> r == OnQueryContext(key, syntax, operator, operand)
    ensures ContextPrefix <= key && syntax.Some? && operator.OpNotEqual? ==>
      r == Some(!OnQueryContext(key, syntax, OpEqual, operand).value)
  {
    if !(ContextPrefix <= key) then None
    else if syntax.Some? && operator == OpEqual then Some(BoolEquals(syntax.value == GraphqlSyntaxName, operand))
    else if syntax.Some? && operator == OpNotEqual then Some(!BoolEquals(syntax.value == GraphqlSyntaxName, operand))
    else Some(false)
  }

  /** With the correction the two operators give opposite answers on every view that has a syntax. */
  lemma CorrectedNotEqualNegatesEqual(key: string, syntax: Option<string>, operand: Json)
    requires ContextPrefix <= key && syntax.Some?
    ensures OnQueryContextCorrected(key, syntax, OpNotEqual, operand).value
         == !OnQueryContextCorrected(key, syntax, OpEqual, operand).value
  {
  }
}
