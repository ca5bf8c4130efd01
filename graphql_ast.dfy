/**
 * The parsed GraphQL document the query limiter inspects. Only the node kinds the
 * limiter looks at are kept: definitions, selection sets and the three kinds of
 * selection. Arguments, directives and variables carry no field nodes of their own
 * and are left out.
 */
module GraphQlAst {
  import opened Wrappers

  /** One entry of a selection set. */
  datatype Selection =
    | Field(alias: Option<string>, name: string, selectionSet: Option<SelectionSet>)
    | FragmentSpread(fragmentName: string)
    | InlineFragment(typeCondition: Option<string>, fragmentSelectionSet: SelectionSet)

  datatype SelectionSet = SelectionSet(selections: seq<Selection>)

  /**
   * A top-level definition. Operations and fragment definitions have a selection
   * set; type-system definitions (schema, types, directives) do not.
   */
  datatype Definition =
    | OperationDefinition(operationName: Option<string>, selectionSet: SelectionSet)
    | FragmentDefinition(name: string, typeCondition: string, selectionSet: SelectionSet)
    | TypeSystemDefinition(typeName: string)

  datatype Document = Document(definitions: seq<Definition>)

  /** What the external parser yields: a document, or the syntax error it raises. */
  datatype ParseResult = Parsed(document: Document) | SyntaxError(message: string)

  /** The selection set a definition carries, if it has the property at all. */
  function SelectionSetOf(d: Definition): (r: Option<SelectionSet>)
    ensures r.Some? <==> !d.TypeSystemDefinition?
  {
    match d
    case OperationDefinition(_, sel) => Some(sel)
    case FragmentDefinition(_, _, sel) => Some(sel)
    case TypeSystemDefinition(_) => None
  }

  /** The selection set nested directly under a selection, if any. */
  function NestedSelectionSet(s: Selection): Option<SelectionSet>
  {
    match s
    case Field(_, _, sel) => sel
    case FragmentSpread(_) => None
    case InlineFragment(_, sel) => Some(sel)
  }

  /** Number of nodes in a selection and everything below it. */
  function SelectionSize(s: Selection): nat
    decreases s
  {
    match s
    case Field(_, _, None) => 1
    case Field(_, _, Some(sel)) => 1 + SelectionsSize(sel.selections)
    case FragmentSpread(_) => 1
    case InlineFragment(_, sel) => 1 + SelectionsSize(sel.selections)
  }

  function SelectionsSize(ss: seq<Selection>): nat
    decreases ss
  {
    if ss == [] then 0 else SelectionSize(ss[0]) + SelectionsSize(ss[1..])
  }
}
