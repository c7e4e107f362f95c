/** The lint pass: a builder that fixes the configuration, and a linter whose
    `LintProgram` runs every configured rule once against one mutable context
    and then filters and orders the diagnostics. Parsing, directive parsing,
    the rule bodies, the three suppression stages and the priority sort are
    collaborators whose code is not part of this model; they are passed in as
    the fields of a `Collaborators` value. */
module Linter {
  import opened Diagnostics
  import opened Sources
  import opened LintContext
  import opened DiagnosticOrder

  datatype Result<+T, +E> = Ok(value: T) | Err(error: E)

  /** A rule as the linter sees it: its stable code and its tags. */
  datatype LintRule = LintRule(code: string, tags: seq<string>)

  /** A plugin is configured by name; its callback is never invoked by a pass. */
  datatype LintPlugin = LintPlugin(name: string)

  /** The parser's error value. */
  datatype ParseDiagnostic = ParseDiagnostic(specifier: string, message: string)

  /** The code of the meta-rule that reports unknown codes in ignore directives. */
  const BanUnknownRuleCodeCode: string := "ban-unknown-rule-code"

  /** The collaborators of a pass, each as the function of its inputs that it computes. */
  datatype Collaborators = Collaborators(
    // parse_program with the syntax derived from the media type
    parse: (string, MediaType, string) -> Result<ParsedSource, ParseDiagnostic>,
    // parse_file_ignore_directives and parse_line_ignore_directives, given the directive name
    fileIgnoreDirective: (string, ParsedSource) -> Option<FileIgnoreDirective>,
    lineIgnoreDirectives: (string, ParsedSource) -> seq<LineIgnoreDirective>,
    // what one rule appends to the context's diagnostics
    ruleDiagnostics: (LintRule, ParsedSource, MediaType) -> seq<LintDiagnostic>,
    // the three filter stages of the context
    checkIgnoreDirectiveUsage: ContextState -> seq<LintDiagnostic>,
    banUnknownRuleCode: ContextState -> seq<LintDiagnostic>,
    banUnusedIgnore: (ContextState, seq<LintRule>) -> seq<LintDiagnostic>,
    // sort_rules_by_priority, applied to the rule list in place
    sortRulesByPriority: seq<LintRule> -> seq<LintRule>)

  /** What the priority sort is assumed to do: reorder, never add or drop. */
  ghost predicate SortPermutes(collab: Collaborators)
  {
    forall rs: seq<LintRule> :: multiset(collab.sortRulesByPriority(rs)) == multiset(rs)
  }

  datatype LinterBuilder = LinterBuilder(
    ignoreFileDirective: string,
    ignoreDiagnosticDirective: string,
    mediaType: MediaType,
    rules: seq<LintRule>,
    plugins: seq<LintPlugin>)
  {
    static function Default(): (b: LinterBuilder)
      ensures b.ignoreFileDirective == "deno-lint-ignore-file"
      ensures b.ignoreDiagnosticDirective == "deno-lint-ignore"
      ensures b.mediaType == TypeScript
      ensures b.rules == [] && b.plugins == []
    {
      LinterBuilder("deno-lint-ignore-file", "deno-lint-ignore", TypeScript, [], [])
    }

    function SetIgnoreFileDirective(directive: string): (b: LinterBuilder)
      ensures b.ignoreFileDirective == directive
      ensures b.ignoreDiagnosticDirective == ignoreDiagnosticDirective && b.mediaType == mediaType
      ensures b.rules == rules && b.plugins == plugins
    {
      this.(ignoreFileDirective := directive)
    }

    function SetIgnoreDiagnosticDirective(directive: string): (b: LinterBuilder)
      ensures b.ignoreDiagnosticDirective == directive
      ensures b.ignoreFileDirective == ignoreFileDirective && b.mediaType == mediaType
      ensures b.rules == rules && b.plugins == plugins
    {
      this.(ignoreDiagnosticDirective := directive)
    }

    function SetMediaType(mediaType: MediaType): (b: LinterBuilder)
      ensures b.mediaType == mediaType
      ensures b.ignoreFileDirective == ignoreFileDirective
      ensures b.ignoreDiagnosticDirective == ignoreDiagnosticDirective
      ensures b.rules == rules && b.plugins == plugins
    {
      this.(mediaType := mediaType)
    }

    function SetRules(rules: seq<LintRule>): (b: LinterBuilder)
      ensures b.rules == rules
      ensures b.ignoreFileDirective == ignoreFileDirective
      ensures b.ignoreDiagnosticDirective == ignoreDiagnosticDirective
      ensures b.mediaType == mediaType && b.plugins == plugins
    {
      this.(rules := rules)
    }

    function SetPlugins(plugins: seq<LintPlugin>): (b: LinterBuilder)
      ensures b.plugins == plugins
      ensures b.ignoreFileDirective == ignoreFileDirective
      ensures b.ignoreDiagnosticDirective == ignoreDiagnosticDirective
      ensures b.mediaType == mediaType && b.rules == rules
    {
      this.(plugins := plugins)
    }

    method Build() returns (linter: Linter)
      ensures fresh(linter)
      ensures linter.ignoreFileDirective == ignoreFileDirective
      ensures linter.ignoreDiagnosticDirective == ignoreDiagnosticDirective
      ensures linter.mediaType == mediaType
      ensures linter.rules == rules && linter.plugins == plugins
    {
      linter := new Linter(ignoreFileDirective, ignoreDiagnosticDirective, mediaType, rules, plugins);
    }
  }

  /** Whether the unknown-rule-code check is active: some configured rule
      carries the meta-rule's code. */
  function CheckUnknownRules(rules: seq<LintRule>): (check: bool)
    ensures check <==> exists i :: 0 <= i < |rules| && rules[i].code == BanUnknownRuleCodeCode
  {
    if rules == [] then false
    else if rules[0].code == BanUnknownRuleCodeCode then true
    else
      var rest := CheckUnknownRules(rules[1..]);
      assert rest ==> exists i :: 1 <= i < |rules| && rules[i].code == BanUnknownRuleCodeCode by {
        if rest {
          var k :| 0 <= k < |rules[1..]| && rules[1..][k].code == BanUnknownRuleCodeCode;
          assert rules[k + 1].code == BanUnknownRuleCodeCode;
        }
      }
      rest
  }

  /** The file-level fast exit: a file directive that lists no codes. */
  predicate IgnoresFile(file: Option<FileIgnoreDirective>)
  {
    file.Some? && file.value.IgnoreAll()
  }

  /** What the rules append to the context, in the order they run. */
  function RulesDiagnostics(rules: seq<LintRule>, source: ParsedSource, mediaType: MediaType, collab: Collaborators): seq<LintDiagnostic>
  {
    if rules == [] then []
    else RulesDiagnostics(rules[..|rules| - 1], source, mediaType, collab)
         + collab.ruleDiagnostics(rules[|rules| - 1], source, mediaType)
  }

  /** The report of a pass that was not cut short: the three stage outputs
      concatenated in order, then stably sorted by start line. */
  function FilterResult(state: ContextState, rules: seq<LintRule>, collab: Collaborators): seq<LintDiagnostic>
  {
    SortByLine(collab.checkIgnoreDirectiveUsage(state)
               + collab.banUnknownRuleCode(state)
               + collab.banUnusedIgnore(state, rules))
  }

  /** The result of one pass over a parsed source with the given configuration. */
  function LintProgramResult(
    ignoreFileDirective: string, ignoreDiagnosticDirective: string, mediaType: MediaType,
    rules: seq<LintRule>, source: ParsedSource, collab: Collaborators): seq<LintDiagnostic>
  {
    var file := collab.fileIgnoreDirective(ignoreFileDirective, source);
    if IgnoresFile(file) then []
    else
      var sorted := collab.sortRulesByPriority(rules);
      var state := ContextState(
        source, mediaType, file,
        collab.lineIgnoreDirectives(ignoreDiagnosticDirective, source),
        CheckUnknownRules(rules),
        RulesDiagnostics(sorted, source, mediaType, collab));
      FilterResult(state, sorted, collab)
  }

  /** The final report is ordered by start line, holds exactly the stage
      outputs, and keeps the concatenation order among diagnostics that
      start on the same line. */
  lemma {:induction false} FilterResultOrdered(state: ContextState, rules: seq<LintRule>, collab: Collaborators)
    ensures var r := FilterResult(state, rules, collab);
      var usage := collab.checkIgnoreDirectiveUsage(state);
      var unknown := collab.banUnknownRuleCode(state);
      var unused := collab.banUnusedIgnore(state, rules);
      && SortedByLine(r)
      && multiset(r) == multiset(usage) + multiset(unknown) + multiset(unused)
      && forall line: nat :: OnLine(r, line) == OnLine(usage, line) + OnLine(unknown, line) + OnLine(unused, line)
  {
    var usage := collab.checkIgnoreDirectiveUsage(state);
    var unknown := collab.banUnknownRuleCode(state);
    var unused := collab.banUnusedIgnore(state, rules);
    var all := usage + unknown + unused;
    SortIsSorted(all);
    SortIsPermutation(all);
    forall line: nat
      ensures OnLine(SortByLine(all), line) == OnLine(usage, line) + OnLine(unknown, line) + OnLine(unused, line)
    {
      SortIsStable(all, line);
      OnLineAppend(usage + unknown, unused, line);
      OnLineAppend(usage, unknown, line);
    }
  }

  /** A pass either stops at the file-level directive with nothing to report,
      or reports a sorted permutation of the three stage outputs. */
  lemma {:induction false} LintProgramResultShape(
    ignoreFileDirective: string, ignoreDiagnosticDirective: string, mediaType: MediaType,
    rules: seq<LintRule>, source: ParsedSource, collab: Collaborators)
    ensures var r := LintProgramResult(ignoreFileDirective, ignoreDiagnosticDirective, mediaType, rules, source, collab);
      && (IgnoresFile(collab.fileIgnoreDirective(ignoreFileDirective, source)) ==> r == [])
      && SortedByLine(r)
  {
    var file := collab.fileIgnoreDirective(ignoreFileDirective, source);
    if !IgnoresFile(file) {
      var sorted := collab.sortRulesByPriority(rules);
      var state := ContextState(
        source, mediaType, file,
        collab.lineIgnoreDirectives(ignoreDiagnosticDirective, source),
        CheckUnknownRules(rules),
        RulesDiagnostics(sorted, source, mediaType, collab));
      FilterResultOrdered(state, sorted, collab);
    }
  }

  class Linter {
    const ignoreFileDirective: string
    const ignoreDiagnosticDirective: string
    const mediaType: MediaType
    var rules: seq<LintRule>
    const plugins: seq<LintPlugin>

    constructor (
      ignoreFileDirective: string, ignoreDiagnosticDirective: string, mediaType: MediaType,
      rules: seq<LintRule>, plugins: seq<LintPlugin>)
      ensures this.ignoreFileDirective == ignoreFileDirective
      ensures this.ignoreDiagnosticDirective == ignoreDiagnosticDirective
      ensures this.mediaType == mediaType
      ensures this.rules == rules && this.plugins == plugins
    {
      this.ignoreFileDirective := ignoreFileDirective;
      this.ignoreDiagnosticDirective := ignoreDiagnosticDirective;
      this.mediaType := mediaType;
      this.rules := rules;
      this.plugins := plugins;
    }

    /** Parses the text, then runs one pass; a parse error is returned as is
        and no rule runs. */
    method Lint(fileName: string, sourceCode: string, collab: Collaborators)
      returns (r: Result<(ParsedSource, seq<LintDiagnostic>), ParseDiagnostic>, ghost invoked: seq<LintRule>)
      modifies this
      ensures var parsed := collab.parse(fileName, mediaType, sourceCode);
        && (parsed.Err? ==> r == Err(parsed.error) && invoked == [] && rules == old(rules))
        && (parsed.Ok? ==> r == Ok((parsed.value, LintProgramResult(
              ignoreFileDirective, ignoreDiagnosticDirective, mediaType, old(rules), parsed.value, collab))))
    {
      var parsed := collab.parse(fileName, mediaType, sourceCode);
      if parsed.Err? {
        return Err(parsed.error), [];
      }
      var diagnostics;
      diagnostics, invoked := LintProgram(parsed.value, collab);
      r := Ok((parsed.value, diagnostics));
    }

    /** One pass over an already parsed source: the same result `Lint`
        reports for a text that parses to it. */
    method LintWithAst(source: ParsedSource, collab: Collaborators)
      returns (diagnostics: seq<LintDiagnostic>, ghost invoked: seq<LintRule>)
      modifies this
      ensures diagnostics == LintProgramResult(
        ignoreFileDirective, ignoreDiagnosticDirective, mediaType, old(rules), source, collab)
    {
      diagnostics, invoked := LintProgram(source, collab);
    }

    /** Concatenates the three stage outputs and sorts them by start line. */
    method FilterDiagnostics(context: Context, collab: Collaborators) returns (filtered: seq<LintDiagnostic>)
      ensures filtered == FilterResult(context.State(), rules, collab)
    {
      filtered := collab.checkIgnoreDirectiveUsage(context.State());
      filtered := filtered + collab.banUnknownRuleCode(context.State());
      filtered := filtered + collab.banUnusedIgnore(context.State(), rules);
      filtered := SortDiagnosticsByLine(filtered);
    }

    method LintProgram(source: ParsedSource, collab: Collaborators)
      returns (diagnostics: seq<LintDiagnostic>, ghost invoked: seq<LintRule>)
      modifies this
      ensures diagnostics == LintProgramResult(
        ignoreFileDirective, ignoreDiagnosticDirective, mediaType, old(rules), source, collab)
      ensures IgnoresFile(collab.fileIgnoreDirective(ignoreFileDirective, source)) ==>
        diagnostics == [] && invoked == [] && rules == old(rules)
      ensures !IgnoresFile(collab.fileIgnoreDirective(ignoreFileDirective, source)) ==>
        rules == collab.sortRulesByPriority(old(rules)) && invoked == rules
      ensures SortPermutes(collab) ==> multiset(invoked) <= multiset(old(rules))
      ensures SortPermutes(collab) && !IgnoresFile(collab.fileIgnoreDirective(ignoreFileDirective, source)) ==>
        multiset(invoked) == multiset(old(rules))
    {
      var checkUnknownRules := CheckUnknownRules(rules);
      var fileIgnoreDirective := collab.fileIgnoreDirective(ignoreFileDirective, source);
      if IgnoresFile(fileIgnoreDirective) {
        return [], [];
      }
      var lineIgnoreDirectives := collab.lineIgnoreDirectives(ignoreDiagnosticDirective, source);
      var context := new Context(source, mediaType, fileIgnoreDirective, lineIgnoreDirectives, checkUnknownRules);

      var sorted := collab.sortRulesByPriority(rules);
      rules := sorted;

      invoked := [];
      for i := 0 to |sorted|
        modifies context
        invariant context.diagnostics == RulesDiagnostics(sorted[..i], source, mediaType, collab)
        invariant invoked == sorted[..i]
      {
        // the rule's own lint pass, which only appends to the context's diagnostics
        context.diagnostics := context.diagnostics + collab.ruleDiagnostics(sorted[i], source, mediaType);
        invoked := invoked + [sorted[i]];
        assert sorted[..i + 1][..i] == sorted[..i];
      }
      assert sorted[..|sorted|] == sorted;

      diagnostics := FilterDiagnostics(context, collab);
    }
  }
}
