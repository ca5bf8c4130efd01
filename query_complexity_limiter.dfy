/**
 * The GraphQL query limiter: two cheap pre-checks run on the raw query text
 * before full validation (a field count and an alias count), and the
 * registration of the three library validation rules that do the rest.
 *
 * The parser is an outside collaborator; every operation that parses takes it
 * as a total function from query text to a document or a syntax error.
 */
module QueryComplexityLimiter {
  import opened Wrappers
  import opened Sums
  import opened GraphQlAst

  /** The alias limit settings: whether the limit is enforced, and how many aliases are allowed. */
  datatype MaximumAliasConfiguration =
    MaximumAliasConfiguration(isMaximumAliasLimitEnabled: bool, maximumAliasAllowed: int)

  /** The limiter's configuration, fixed at construction. */
  datatype LimiterConfig = LimiterConfig(
    queryDepth: int,
    queryComplexity: int,
    isIntrospectionDisabled: bool,
    maximumAlias: MaximumAliasConfiguration)

  /** Why a query is rejected: the parser's syntax error, or a limit with the count that broke it. */
  datatype LimiterError =
    | Syntax(message: string)
    | QueryComplexityExceeded(maxComplexity: int, fieldCount: nat)
    | AliasLimitExceeded(maxAliases: int, aliasCount: nat)

  datatype Outcome = Pass | Fail(error: LimiterError)

  /** PHP's `empty()` on a string: the empty string and "0" are empty. */
  predicate IsPhpEmpty(s: string)
  {
    s == "" || s == "0"
  }

  /** PHP's `$s ?: ''`: a falsy string becomes the empty string. */
  function OrEmpty(s: string): string
  {
    if IsPhpEmpty(s) then "" else s
  }

  // ---------------------------------------------------------------------------
  // The field count: every Field node anywhere in the document, including those
  // inside inline fragments and fragment definitions. Fragment spreads are not
  // expanded.
  // ---------------------------------------------------------------------------

  function FieldsInSelection(s: Selection): nat
    decreases s
  {
    match s
    case Field(_, _, None) => 1
    case Field(_, _, Some(sel)) => 1 + FieldsInSelections(sel.selections)
    case FragmentSpread(_) => 0
    case InlineFragment(_, sel) => FieldsInSelections(sel.selections)
  }

  function FieldsInSelections(ss: seq<Selection>): nat
    decreases ss
  {
    if ss == [] then 0 else FieldsInSelection(ss[0]) + FieldsInSelections(ss[1..])
  }

  function FieldsInDefinition(d: Definition): nat
  {
    match SelectionSetOf(d)
    case Some(sel) => FieldsInSelections(sel.selections)
    case None => 0
  }

  /** The number of Field nodes in the document. */
  function FieldCount(doc: Document): nat
  {
    Sum(doc.definitions, FieldsInDefinition)
  }

  // ---------------------------------------------------------------------------
  // The alias count: only Field selections are looked at. A field adds one when
  // it has an alias, plus the aliases of its own selection set; fragment spreads
  // and inline fragments add nothing, whatever they contain.
  // ---------------------------------------------------------------------------

  function AliasesInSelection(s: Selection): nat
    decreases s
  {
    match s
    case Field(alias, _, sub) =>
      (if alias.Some? then 1 else 0)
      + (match sub case Some(sel) => AliasesInSelections(sel.selections) case None => 0)
    case FragmentSpread(_) => 0
    case InlineFragment(_, _) => 0
  }

  function AliasesInSelections(ss: seq<Selection>): nat
    decreases ss
  {
    if ss == [] then 0 else AliasesInSelection(ss[0]) + AliasesInSelections(ss[1..])
  }

  /** A definition contributes only when it has a selection set. */
  function AliasesInDefinition(d: Definition): nat
  {
    match SelectionSetOf(d)
    case Some(sel) => AliasesInSelections(sel.selections)
    case None => 0
  }

  function AliasCount(doc: Document): nat
  {
    Sum(doc.definitions, AliasesInDefinition)
  }

  // ---------------------------------------------------------------------------
  // A reference count to compare with: aliased Field nodes anywhere in the
  // document, inline fragments included, as a visitor over all nodes would see.
  // ---------------------------------------------------------------------------

  function AliasedFieldsInSelection(s: Selection): nat
    decreases s
  {
    match s
    case Field(alias, _, sub) =>
      (if alias.Some? then 1 else 0)
      + (match sub case Some(sel) => AliasedFieldsInSelections(sel.selections) case None => 0)
    case FragmentSpread(_) => 0
    case InlineFragment(_, sel) => AliasedFieldsInSelections(sel.selections)
  }

  function AliasedFieldsInSelections(ss: seq<Selection>): nat
    decreases ss
  {
    if ss == [] then 0 else AliasedFieldsInSelection(ss[0]) + AliasedFieldsInSelections(ss[1..])
  }

  function AliasedFieldsInDefinition(d: Definition): nat
  {
    match SelectionSetOf(d)
    case Some(sel) => AliasedFieldsInSelections(sel.selections)
    case None => 0
  }

  function AliasedFieldCount(doc: Document): nat
  {
    Sum(doc.definitions, AliasedFieldsInDefinition)
  }

  /** No inline fragment occurs anywhere below a selection. */
  predicate InlineFree(s: Selection)
    decreases s
  {
    match s
    case Field(_, _, None) => true
    case Field(_, _, Some(sel)) => AllInlineFree(sel.selections)
    case FragmentSpread(_) => true
    case InlineFragment(_, _) => false
  }

  predicate AllInlineFree(ss: seq<Selection>)
    decreases ss
  {
    ss == [] || (InlineFree(ss[0]) && AllInlineFree(ss[1..]))
  }

  predicate DefinitionInlineFree(d: Definition)
  {
    match SelectionSetOf(d)
    case Some(sel) => AllInlineFree(sel.selections)
    case None => true
  }

  predicate DocumentInlineFree(doc: Document)
  {
    forall i :: 0 <= i < |doc.definitions| ==> DefinitionInlineFree(doc.definitions[i])
  }

  // ---------------------------------------------------------------------------
  // Properties of the two counts
  // ---------------------------------------------------------------------------

  lemma {:induction false} FieldsInSelectionsIsSum(ss: seq<Selection>)
    ensures FieldsInSelections(ss) == Sum(ss, FieldsInSelection)
    decreases ss
  {
    if ss != [] {
      FieldsInSelectionsIsSum(ss[1..]);
    }
  }

  lemma {:induction false} AliasesInSelectionsIsSum(ss: seq<Selection>)
    ensures AliasesInSelections(ss) == Sum(ss, AliasesInSelection)
    decreases ss
  {
    if ss != [] {
      AliasesInSelectionsIsSum(ss[1..]);
    }
  }

  /** The field count of a selection set does not depend on the order of its selections. */
  lemma FieldCountOrderIndependent(ss: seq<Selection>, ts: seq<Selection>)
    requires multiset(ss) == multiset(ts)
    ensures FieldsInSelections(ss) == FieldsInSelections(ts)
  {
    FieldsInSelectionsIsSum(ss);
    FieldsInSelectionsIsSum(ts);
    SumPermutation(ss, ts, FieldsInSelection);
  }

  /** Nor does the field count of a document depend on the order of its definitions. */
  lemma DocumentFieldCountOrderIndependent(doc: Document, other: Document)
    requires multiset(doc.definitions) == multiset(other.definitions)
    ensures FieldCount(doc) == FieldCount(other)
  {
    SumPermutation(doc.definitions, other.definitions, FieldsInDefinition);
  }

  /** The alias count is a plain sum too: reordering selections does not change it. */
  lemma AliasCountOrderIndependent(ss: seq<Selection>, ts: seq<Selection>)
    requires multiset(ss) == multiset(ts)
    ensures AliasesInSelections(ss) == AliasesInSelections(ts)
  {
    AliasesInSelectionsIsSum(ss);
    AliasesInSelectionsIsSum(ts);
    SumPermutation(ss, ts, AliasesInSelection);
  }

  lemma {:induction false} AliasBoundsSelection(s: Selection)
    ensures AliasesInSelection(s) <= AliasedFieldsInSelection(s) <= FieldsInSelection(s)
    decreases s
  {
    match s
    case Field(_, _, None) =>
    case Field(_, _, Some(sel)) => AliasBoundsSelections(sel.selections);
    case FragmentSpread(_) =>
    case InlineFragment(_, sel) => AliasBoundsSelections(sel.selections);
  }

  lemma {:induction false} AliasBoundsSelections(ss: seq<Selection>)
    ensures AliasesInSelections(ss) <= AliasedFieldsInSelections(ss) <= FieldsInSelections(ss)
    decreases ss
  {
    if ss != [] {
      AliasBoundsSelection(ss[0]);
      AliasBoundsSelections(ss[1..]);
    }
  }

  lemma {:induction false} AliasBoundsDefinitions(ds: seq<Definition>)
    ensures Sum(ds, AliasesInDefinition) <= Sum(ds, AliasedFieldsInDefinition) <= Sum(ds, FieldsInDefinition)
  {
    if ds != [] {
      match SelectionSetOf(ds[0]) {
        case Some(sel) => AliasBoundsSelections(sel.selections);
        case None =>
      }
      AliasBoundsDefinitions(ds[1..]);
    }
  }

  /**
   * The alias count never exceeds the number of aliased fields, which never
   * exceeds the field count: whenever the alias check rejects with limit n,
   * there are more than n Field nodes in the document.
   */
  lemma AliasCountBounds(doc: Document)
    ensures AliasCount(doc) <= AliasedFieldCount(doc) <= FieldCount(doc)
  {
    AliasBoundsDefinitions(doc.definitions);
  }

  lemma {:induction false} InlineFreeAliasesExact(s: Selection)
    requires InlineFree(s)
    ensures AliasesInSelection(s) == AliasedFieldsInSelection(s)
    decreases s
  {
    match s
    case Field(_, _, None) =>
    case Field(_, _, Some(sel)) => AllInlineFreeAliasesExact(sel.selections);
    case FragmentSpread(_) =>
  }

  lemma {:induction false} AllInlineFreeAliasesExact(ss: seq<Selection>)
    requires AllInlineFree(ss)
    ensures AliasesInSelections(ss) == AliasedFieldsInSelections(ss)
    decreases ss
  {
    if ss != [] {
      InlineFreeAliasesExact(ss[0]);
      AllInlineFreeAliasesExact(ss[1..]);
    }
  }

  lemma {:induction false} InlineFreeDefinitionsAliasesExact(ds: seq<Definition>)
    requires forall i :: 0 <= i < |ds| ==> DefinitionInlineFree(ds[i])
    ensures Sum(ds, AliasesInDefinition) == Sum(ds, AliasedFieldsInDefinition)
  {
    if ds != [] {
      assert DefinitionInlineFree(ds[0]);
      match SelectionSetOf(ds[0]) {
        case Some(sel) => AllInlineFreeAliasesExact(sel.selections);
        case None =>
      }
      assert forall i :: 0 <= i < |ds[1..]| ==> ds[1..][i] == ds[i + 1];
      InlineFreeDefinitionsAliasesExact(ds[1..]);
    }
  }

  /** Without inline fragments the alias count is exactly the number of aliased fields. */
  lemma InlineFreeAliasCountExact(doc: Document)
    requires DocumentInlineFree(doc)
    ensures AliasCount(doc) == AliasedFieldCount(doc)
  {
    InlineFreeDefinitionsAliasesExact(doc.definitions);
  }

  /**
   * The asymmetry between the two counts: an aliased field inside an inline
   * fragment is seen by the field count but not by the alias count.
   */
  lemma InlineFragmentAliasesNotCounted()
    ensures var doc := Document([OperationDefinition(None, SelectionSet([
              InlineFragment(Some("Query"), SelectionSet([Field(Some("first"), "products", None)]))]))]);
            AliasCount(doc) == 0 && AliasedFieldCount(doc) == 1 && FieldCount(doc) == 1
  {
  }

  /**
   * For every inline fragment: its fields all count as fields and its aliased
   * fields as aliased fields, but it contributes no alias at all.
   */
  lemma InlineFragmentAsymmetry(typeCondition: Option<string>, sel: SelectionSet)
    ensures AliasesInSelection(InlineFragment(typeCondition, sel)) == 0
    ensures FieldsInSelection(InlineFragment(typeCondition, sel)) == FieldsInSelections(sel.selections)
    ensures AliasedFieldsInSelection(InlineFragment(typeCondition, sel)) == AliasedFieldsInSelections(sel.selections)
  {
  }

  /** Inserting a fragment spread anywhere in a selection set changes neither count. */
  lemma SpreadInsertionNeutral(ss: seq<Selection>, i: nat, fragmentName: string)
    requires i <= |ss|
    ensures FieldsInSelections(ss[..i] + [FragmentSpread(fragmentName)] + ss[i..]) == FieldsInSelections(ss)
    ensures AliasesInSelections(ss[..i] + [FragmentSpread(fragmentName)] + ss[i..]) == AliasesInSelections(ss)
  {
    var spread := [FragmentSpread(fragmentName)];
    var inserted := ss[..i] + spread + ss[i..];
    assert ss == ss[..i] + ss[i..];
    FieldsInSelectionsIsSum(inserted);
    FieldsInSelectionsIsSum(ss);
    AliasesInSelectionsIsSum(inserted);
    AliasesInSelectionsIsSum(ss);
    assert spread[1..] == [];
    SumConcat(ss[..i] + spread, ss[i..], FieldsInSelection);
    SumConcat(ss[..i], spread, FieldsInSelection);
    SumConcat(ss[..i], ss[i..], FieldsInSelection);
    SumConcat(ss[..i] + spread, ss[i..], AliasesInSelection);
    SumConcat(ss[..i], spread, AliasesInSelection);
    SumConcat(ss[..i], ss[i..], AliasesInSelection);
  }

  /**
   * Fragment spreads are not expanded: the fields of a fragment definition are
   * counted once, where the fragment is defined, however often it is spread.
   */
  lemma FragmentSpreadsNotExpanded()
    ensures var doc := Document([
              OperationDefinition(None, SelectionSet([FragmentSpread("F"), FragmentSpread("F")])),
              FragmentDefinition("F", "Query", SelectionSet([Field(Some("first"), "products", None)]))]);
            FieldCount(doc) == 1 && AliasCount(doc) == 1
  {
  }

  // ---------------------------------------------------------------------------
  // validateFieldCount. The library visitor walks the whole tree and calls the
  // limiter's "leave Field" callback, which increments a counter; here the walk
  // is an explicit stack of enter and leave steps, so that a node is left only
  // after everything below it.
  // ---------------------------------------------------------------------------

  datatype Node = DefinitionNode(definition: Definition) | SelectionNode(selection: Selection)

  datatype VisitStep = Enter(node: Node) | Leave(node: Node)

  predicate IsFieldNode(n: Node)
  {
    n.SelectionNode? && n.selection.Field?
  }

  function EnterSelections(ss: seq<Selection>): seq<VisitStep>
  {
    if ss == [] then [] else [Enter(SelectionNode(ss[0]))] + EnterSelections(ss[1..])
  }

  function EnterDefinitions(ds: seq<Definition>): seq<VisitStep>
  {
    if ds == [] then [] else [Enter(DefinitionNode(ds[0]))] + EnterDefinitions(ds[1..])
  }

  /** The steps that entering a node schedules: enter each child, in order. */
  function ChildSteps(n: Node): seq<VisitStep>
  {
    match n
    case DefinitionNode(d) =>
      (match SelectionSetOf(d) case Some(sel) => EnterSelections(sel.selections) case None => [])
    case SelectionNode(s) =>
      (match NestedSelectionSet(s) case Some(sel) => EnterSelections(sel.selections) case None => [])
  }

  /** Fields still to be counted for a pending step. */
  function StepFields(step: VisitStep): nat
  {
    match step
    case Enter(DefinitionNode(d)) => FieldsInDefinition(d)
    case Enter(SelectionNode(s)) => FieldsInSelection(s)
    case Leave(n) => if IsFieldNode(n) then 1 else 0
  }

  /** Work left for a pending step; entering a node costs twice its size. */
  function StepSize(step: VisitStep): nat
  {
    match step
    case Enter(DefinitionNode(d)) =>
      2 * (1 + match SelectionSetOf(d) case Some(sel) => SelectionsSize(sel.selections) case None => 0)
    case Enter(SelectionNode(s)) => 2 * SelectionSize(s)
    case Leave(_) => 1
  }

  lemma {:induction false} EnterSelectionsMeasures(ss: seq<Selection>)
    ensures Sum(EnterSelections(ss), StepFields) == FieldsInSelections(ss)
    ensures Sum(EnterSelections(ss), StepSize) == 2 * SelectionsSize(ss)
  {
    if ss != [] {
      EnterSelectionsMeasures(ss[1..]);
      assert EnterSelections(ss)[1..] == EnterSelections(ss[1..]);
    }
  }

  lemma {:induction false} EnterDefinitionsFields(ds: seq<Definition>)
    ensures Sum(EnterDefinitions(ds), StepFields) == Sum(ds, FieldsInDefinition)
  {
    if ds != [] {
      EnterDefinitionsFields(ds[1..]);
      assert EnterDefinitions(ds)[1..] == EnterDefinitions(ds[1..]);
    }
  }

  /** Replacing `Enter(n)` by its children and `Leave(n)` keeps the fields to count and lowers the work left. */
  lemma ExpandEnter(n: Node)
    ensures Sum(ChildSteps(n) + [Leave(n)], StepFields) == StepFields(Enter(n))
    ensures Sum(ChildSteps(n) + [Leave(n)], StepSize) < StepSize(Enter(n))
  {
    SumConcat(ChildSteps(n), [Leave(n)], StepFields);
    SumConcat(ChildSteps(n), [Leave(n)], StepSize);
    assert [Leave(n)][1..] == [];
    match n
    case DefinitionNode(d) =>
      match SelectionSetOf(d) {
        case Some(sel) => EnterSelectionsMeasures(sel.selections);
        case None =>
      }
    case SelectionNode(s) =>
      match NestedSelectionSet(s) {
        case Some(sel) => EnterSelectionsMeasures(sel.selections);
        case None =>
      }
  }

  /** Walks the document and counts the Field nodes it leaves. */
  method VisitFields(doc: Document) returns (totalFieldCount: nat)
    ensures totalFieldCount == FieldCount(doc)
  {
    totalFieldCount := 0;
    var pending := EnterDefinitions(doc.definitions);
    EnterDefinitionsFields(doc.definitions);
    while pending != []
      invariant totalFieldCount + Sum(pending, StepFields) == FieldCount(doc)
      decreases Sum(pending, StepSize)
    {
      var step, rest := pending[0], pending[1..];
      match step {
        case Enter(n) =>
          ExpandEnter(n);
          SumConcat(ChildSteps(n) + [Leave(n)], rest, StepFields);
          SumConcat(ChildSteps(n) + [Leave(n)], rest, StepSize);
          pending := ChildSteps(n) + [Leave(n)] + rest;
        case Leave(n) =>
          if IsFieldNode(n) {
            totalFieldCount := totalFieldCount + 1;
          }
          pending := rest;
      }
    }
  }

  /**
   * Rejects a query with more Field nodes than the configured complexity. A
   * PHP-empty query ("" or "0") is accepted without being parsed; a syntax
   * error from the parser is passed on.
   */
  method ValidateFieldCount(config: LimiterConfig, query: string, parse: string -> ParseResult)
    returns (outcome: Outcome)
    ensures IsPhpEmpty(query) ==> outcome == Pass
    ensures !IsPhpEmpty(query) && parse(query).SyntaxError? ==>
              outcome == Fail(Syntax(parse(query).message))
    ensures !IsPhpEmpty(query) && parse(query).Parsed? ==>
              var count := FieldCount(parse(query).document);
              && (outcome == Pass <==> count <= config.queryComplexity)
              && (outcome != Pass ==> outcome == Fail(QueryComplexityExceeded(config.queryComplexity, count)))
  {
    if IsPhpEmpty(query) {
      return Pass;
    }
    var queryAst := parse(OrEmpty(query));
    if queryAst.SyntaxError? {
      return Fail(Syntax(queryAst.message));
    }
    var totalFieldCount := VisitFields(queryAst.document);
    if totalFieldCount > config.queryComplexity {
      return Fail(QueryComplexityExceeded(config.queryComplexity, totalFieldCount));
    }
    return Pass;
  }

  // ---------------------------------------------------------------------------
  // validateAliasCount and countAliasesInSelectionSet
  // ---------------------------------------------------------------------------

  /** Counts aliases in a selection set, descending only through Field selections. */
  method CountAliasesInSelectionSet(selectionSet: SelectionSet) returns (aliasCount: nat)
    ensures aliasCount == AliasesInSelections(selectionSet.selections)
    decreases selectionSet
  {
    var selections := selectionSet.selections;
    aliasCount := 0;
    AliasesInSelectionsIsSum(selections);
    for i := 0 to |selections|
      invariant aliasCount == Sum(selections[..i], AliasesInSelection)
    {
      var selection := selections[i];
      if selection.Field? {
        if selection.alias.Some? {
          aliasCount := aliasCount + 1;
        }
        if selection.selectionSet.Some? {
          var nested := CountAliasesInSelectionSet(selection.selectionSet.value);
          aliasCount := aliasCount + nested;
        }
      }
      SumConcat(selections[..i], [selection], AliasesInSelection);
      assert selections[..i + 1] == selections[..i] + [selection];
      assert [selection][1..] == [];
    }
    assert selections[..|selections|] == selections;
  }

  /**
   * When the alias limit is enabled, rejects a query whose alias count exceeds
   * the allowed number. The query is parsed as `$query ?: ''`, so "0" reaches
   * the parser as the empty string; an empty query is not special-cased. When
   * the limit is disabled every query passes, unparsed.
   */
  method ValidateAliasCount(config: LimiterConfig, query: string, parse: string -> ParseResult)
    returns (outcome: Outcome)
    ensures !config.maximumAlias.isMaximumAliasLimitEnabled ==> outcome == Pass
    ensures config.maximumAlias.isMaximumAliasLimitEnabled && parse(OrEmpty(query)).SyntaxError? ==>
              outcome == Fail(Syntax(parse(OrEmpty(query)).message))
    ensures config.maximumAlias.isMaximumAliasLimitEnabled && parse(OrEmpty(query)).Parsed? ==>
              var allowed, count := config.maximumAlias.maximumAliasAllowed, AliasCount(parse(OrEmpty(query)).document);
              && (outcome == Pass <==> count <= allowed)
              && (outcome != Pass ==> outcome == Fail(AliasLimitExceeded(allowed, count)))
  {
    if !config.maximumAlias.isMaximumAliasLimitEnabled {
      return Pass;
    }
    var aliasCount := 0;
    var parsed := parse(OrEmpty(query));
    if parsed.SyntaxError? {
      return Fail(Syntax(parsed.message));
    }
    var definitions := parsed.document.definitions;
    for i := 0 to |definitions|
      invariant aliasCount == Sum(definitions[..i], AliasesInDefinition)
    {
      var definition := definitions[i];
      match SelectionSetOf(definition) {
        case Some(sel) =>
          var n := CountAliasesInSelectionSet(sel);
          aliasCount := aliasCount + n;
        case None =>
      }
      SumConcat(definitions[..i], [definition], AliasesInDefinition);
      assert definitions[..i + 1] == definitions[..i] + [definition];
      assert [definition][1..] == [];
    }
    assert definitions[..|definitions|] == definitions;
    var allowedAliasCount := config.maximumAlias.maximumAliasAllowed;
    if aliasCount > allowedAliasCount {
      return Fail(AliasLimitExceeded(allowedAliasCount, aliasCount));
    }
    return Pass;
  }

  // ---------------------------------------------------------------------------
  // execute: rule registration with the shared document validator
  // ---------------------------------------------------------------------------

  /**
   * The rules in the validation library's registry: the three the limiter
   * registers, with the settings they carry, and rules of any other class.
   * The library's own security defaults belong to the three limit classes;
   * `OtherRule` names a class other than those three.
   */
  datatype ValidationRule =
    | QueryComplexity(maxQueryComplexity: int)
    | DisableIntrospection(isEnabled: int)
    | QueryDepth(maxQueryDepth: int)
    | OtherRule(className: string)

  /** The name a rule is registered under: its class. */
  datatype RuleName = QueryComplexityClass | DisableIntrospectionClass | QueryDepthClass | OtherClass(className: string)

  function NameOf(rule: ValidationRule): RuleName
  {
    match rule
    case QueryComplexity(_) => QueryComplexityClass
    case DisableIntrospection(_) => DisableIntrospectionClass
    case QueryDepth(_) => QueryDepthClass
    case OtherRule(name) => OtherClass(name)
  }

  /** At most one rule per name. */
  predicate UniqueNames(rules: seq<ValidationRule>)
  {
    forall i, j :: 0 <= i < j < |rules| ==> NameOf(rules[i]) != NameOf(rules[j])
  }

  /**
   * The registry after `addRule`: a rule whose name is already registered
   * takes that entry's place; a new name is added at the end.
   */
  function Registered(rules: seq<ValidationRule>, rule: ValidationRule): seq<ValidationRule>
  {
    if rules == [] then [rule]
    else if NameOf(rules[0]) == NameOf(rule) then [rule] + rules[1..]
    else [rules[0]] + Registered(rules[1..], rule)
  }

  /** Registering adds the rule, keeps every rule of another name, and brings in nothing else. */
  lemma {:induction false} RegisteredMembers(rules: seq<ValidationRule>, rule: ValidationRule)
    ensures var after := Registered(rules, rule);
            && rule in after
            && (forall r :: r in rules && NameOf(r) != NameOf(rule) ==> r in after)
            && (forall r :: r in after ==> r == rule || r in rules)
  {
    if rules != [] && NameOf(rules[0]) != NameOf(rule) {
      var tail := rules[1..];
      RegisteredMembers(tail, rule);
      assert rules == [rules[0]] + tail;
    }
  }

  lemma UniqueNamesTail(rules: seq<ValidationRule>)
    requires rules != [] && UniqueNames(rules)
    ensures UniqueNames(rules[1..])
  {
    var tail := rules[1..];
    forall i, j | 0 <= i < j < |tail| ensures NameOf(tail[i]) != NameOf(tail[j]) {
      assert tail[i] == rules[i + 1] && tail[j] == rules[j + 1];
    }
  }

  /** A rule whose name is not among `rules` can be put in front of them. */
  lemma UniqueNamesCons(first: ValidationRule, rest: seq<ValidationRule>)
    requires UniqueNames(rest)
    requires forall r :: r in rest ==> NameOf(r) != NameOf(first)
    ensures UniqueNames([first] + rest)
  {
    var all := [first] + rest;
    forall i, j | 0 <= i < j < |all| ensures NameOf(all[i]) != NameOf(all[j]) {
      assert all[j] == rest[j - 1];
      if i > 0 {
        assert all[i] == rest[i - 1];
      }
    }
  }

  /** Registering keeps at most one rule per name. */
  lemma {:induction false} RegisteredUnique(rules: seq<ValidationRule>, rule: ValidationRule)
    requires UniqueNames(rules)
    ensures UniqueNames(Registered(rules, rule))
  {
    if rules == [] {
    } else if NameOf(rules[0]) == NameOf(rule) {
      UniqueNamesTail(rules);
      forall r | r in rules[1..] ensures NameOf(r) != NameOf(rule) {
        var j :| 0 <= j < |rules[1..]| && rules[1..][j] == r;
        assert rules[j + 1] == r;
      }
      UniqueNamesCons(rule, rules[1..]);
    } else {
      var tail := rules[1..];
      UniqueNamesTail(rules);
      RegisteredUnique(tail, rule);
      RegisteredMembers(tail, rule);
      var rest := Registered(tail, rule);
      forall r | r in rest ensures NameOf(r) != NameOf(rules[0]) {
        if r != rule {
          var j :| 0 <= j < |tail| && tail[j] == r;
          assert rules[j + 1] == r;
        }
      }
      UniqueNamesCons(rules[0], rest);
    }
  }

  /** Registering a rule that is already registered, with the same settings, changes nothing. */
  lemma {:induction false} RegisteredExisting(rules: seq<ValidationRule>, rule: ValidationRule)
    requires UniqueNames(rules) && rule in rules
    ensures Registered(rules, rule) == rules
  {
    var j :| 0 <= j < |rules| && rules[j] == rule;
    if NameOf(rules[0]) == NameOf(rule) {
      assert j == 0;
      assert [rule] + rules[1..] == rules;
    } else {
      var tail := rules[1..];
      assert tail[j - 1] == rule;
      UniqueNamesTail(rules);
      RegisteredExisting(tail, rule);
      assert [rules[0]] + tail == rules;
    }
  }

  /** `Registered` as an index search: replace at the first matching name, or append. */
  lemma {:induction false} RegisteredAtIndex(rules: seq<ValidationRule>, rule: ValidationRule, i: nat)
    requires i <= |rules|
    requires forall k :: 0 <= k < i ==> NameOf(rules[k]) != NameOf(rule)
    requires i < |rules| ==> NameOf(rules[i]) == NameOf(rule)
    ensures Registered(rules, rule) == if i < |rules| then rules[i := rule] else rules + [rule]
  {
    if i > 0 {
      assert NameOf(rules[0]) != NameOf(rule);
      RegisteredAtIndex(rules[1..], rule, i - 1);
      if i < |rules| {
        assert [rules[0]] + rules[1..][i - 1 := rule] == rules[i := rule];
      } else {
        assert [rules[0]] + (rules[1..] + [rule]) == rules + [rule];
      }
    } else if rules != [] {
      assert [rule] + rules[1..] == rules[0 := rule];
    }
  }

  /** The process-wide rule registry consulted by full query validation, keyed by rule name. */
  class DocumentValidator {
    var rules: seq<ValidationRule>

    predicate Valid()
      reads this
    {
      UniqueNames(rules)
    }

    constructor (initial: seq<ValidationRule>)
      requires UniqueNames(initial)
      ensures Valid() && rules == initial
    {
      rules := initial;
    }

    /** Stores the rule under its name, as an assignment to an associative array does. */
    method AddRule(rule: ValidationRule)
      requires Valid()
      modifies this
      ensures Valid()
      ensures rules == Registered(old(rules), rule)
    {
      RegisteredUnique(rules, rule);
      var i := 0;
      while i < |rules| && NameOf(rules[i]) != NameOf(rule)
        invariant i <= |rules|
        invariant forall k :: 0 <= k < i ==> NameOf(rules[k]) != NameOf(rule)
      {
        i := i + 1;
      }
      RegisteredAtIndex(rules, rule, i);
      if i < |rules| {
        rules := rules[i := rule];
      } else {
        rules := rules + [rule];
      }
    }
  }

  /** The three rules `execute` registers, in order. */
  function LimitRules(config: LimiterConfig): seq<ValidationRule>
  {
    [QueryComplexity(config.queryComplexity),
     DisableIntrospection(if config.isIntrospectionDisabled then 1 else 0),
     QueryDepth(config.queryDepth)]
  }

  /** The registry after `execute`: the three rules registered one after the other. */
  function RegisterLimits(rules: seq<ValidationRule>, config: LimiterConfig): seq<ValidationRule>
  {
    var limits := LimitRules(config);
    Registered(Registered(Registered(rules, limits[0]), limits[1]), limits[2])
  }

  /**
   * After registration the three limit rules are in the registry with the
   * configured settings; every rule of another name is kept; nothing else is
   * added; names stay unique.
   */
  lemma RegisterLimitsContents(rules: seq<ValidationRule>, config: LimiterConfig)
    requires UniqueNames(rules)
    ensures var after, limits := RegisterLimits(rules, config), LimitRules(config);
            && UniqueNames(after)
            && limits[0] in after && limits[1] in after && limits[2] in after
            && (forall r :: r in rules && r.OtherRule? ==> r in after)
            && (forall r :: r in after ==> r in limits || r in rules)
  {
    var limits := LimitRules(config);
    var r1 := Registered(rules, limits[0]);
    var r2 := Registered(r1, limits[1]);
    RegisteredUnique(rules, limits[0]);
    RegisteredUnique(r1, limits[1]);
    RegisteredUnique(r2, limits[2]);
    RegisteredMembers(rules, limits[0]);
    RegisteredMembers(r1, limits[1]);
    RegisteredMembers(r2, limits[2]);
  }

  /** On an empty registry the three rules appear in the order they are registered. */
  lemma RegisterLimitsOrder(config: LimiterConfig)
    ensures RegisterLimits([], config) == LimitRules(config)
  {
    var limits := LimitRules(config);
    assert Registered([limits[0]], limits[1]) == [limits[0], limits[1]] by {
      assert [limits[0]][1..] == [];
    }
    assert Registered([limits[0], limits[1]], limits[2]) == limits by {
      assert [limits[0], limits[1]][1..] == [limits[1]];
      assert Registered([limits[1]], limits[2]) == [limits[1], limits[2]] by {
        assert [limits[1]][1..] == [];
      }
    }
  }

  /**
   * Because rules are stored by name, a second `execute` with the same
   * configuration leaves the registry as the first one left it.
   */
  lemma ExecuteTwiceSameAsOnce(rules: seq<ValidationRule>, config: LimiterConfig)
    requires UniqueNames(rules)
    ensures RegisterLimits(RegisterLimits(rules, config), config) == RegisterLimits(rules, config)
  {
    var limits := LimitRules(config);
    var r1 := Registered(rules, limits[0]);
    var r2 := Registered(r1, limits[1]);
    var r3 := Registered(r2, limits[2]);
    RegisteredUnique(rules, limits[0]);
    RegisteredUnique(r1, limits[1]);
    RegisteredUnique(r2, limits[2]);
    RegisteredMembers(rules, limits[0]);
    RegisteredMembers(r1, limits[1]);
    RegisteredMembers(r2, limits[2]);
    RegisteredExisting(r3, limits[0]);
    RegisteredExisting(r3, limits[1]);
    RegisteredExisting(r3, limits[2]);
  }

  /**
   * Registers the complexity, introspection and depth rules, in that order; the
   * introspection flag is cast to 0 or 1. Each takes the place of any rule
   * already registered under its name.
   */
  method Execute(config: LimiterConfig, validator: DocumentValidator)
    requires validator.Valid()
    modifies validator
    ensures validator.Valid()
    ensures validator.rules == RegisterLimits(old(validator.rules), config)
  {
    validator.AddRule(QueryComplexity(config.queryComplexity));
    validator.AddRule(DisableIntrospection(if config.isIntrospectionDisabled then 1 else 0));
    validator.AddRule(QueryDepth(config.queryDepth));
  }
}
