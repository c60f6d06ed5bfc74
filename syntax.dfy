/** The syntax gate shared by the annotation command and the view listener. */
module Syntax {
  import opened Wrappers

  /** Name of the syntax definition the plugin works on. */
  const GraphqlSyntaxName := "GraphQL"

  /**
   * The guard `syntax != None and syntax.name != "GraphQL"` lets a view pass
   * when it has no syntax at all, or when its syntax is named "GraphQL".
   * A syntax is given by its name.
   */
  predicate GraphqlOrUnknown(syntax: Option<string>) {
    syntax.None? || syntax.value == GraphqlSyntaxName
  }
}
