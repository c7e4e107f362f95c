# deno_lint core, modelled in Dafny

This project models three parts of deno_lint, the linter for JavaScript and TypeScript:

- **The lint pass** (`linter.dfy`, with `context.dfy` and `diagnostic_order.dfy`).
  - `LinterBuilder` fixes the configuration. `Build` turns it into a `Linter`.
  - `Lint` parses a file, and a parse error is returned as is. `LintWithAst` starts from a parsed source.
  - `LintProgram` works out whether the unknown-rule-code check is on. It stops with an empty report when a file-level ignore directive lists no codes. Otherwise it builds one `Context`, sorts the rule list in place by priority and runs every rule once against the context, in that order.
  - `FilterDiagnostics` concatenates the outputs of the three suppression stages. It then sorts them stably by start line.
  - The stable sort is specified by `SortByLine`, a reference insertion from the back. It is proved sorted, a permutation and stable, and proved to be the only stable line sort. `SortDiagnosticsByLine` computes it with loops.
- **The `no-inferrable-types` rule** (`no_inferrable_types.dfy`).
  - The decision functions say exactly which initializer makes which annotation inferrable. `CheckKeywordType` has one arm per keyword type, `CheckRefType` covers `RegExp`, and `CheckTsType` dispatches between them.
  - The visitor class appends one diagnostic per reported site to the context. The sites are defaulted parameters, arrow parameters, class and private properties, and variable declarators.
  - The lemmas bound the number of reports and show which sites are never reported and that reports come in source order. They also replay cases from the rule's own test table.
- **The plugin host** (`plugins.dfy`).
  - The op state holds one `PluginCtx` per request.
  - `OpAddDiagnostic` appends a diagnostic only when the source text is non-empty and `end` lies within it.
  - The request loop installs a fresh context, runs the entry point, takes the context back out and answers with its diagnostics.
  - It is proved that each request starts from an empty context and that its response holds exactly what the add-diagnostic calls made during that request recorded, in call order. Nothing carries over from one request's context to the next. Each call records at most one diagnostic, and calls ending inside a non-empty text are all recorded.

Several collaborators are not part of this model: the parser, the ignore-directive parsers, the bodies of the other rules, the three suppression stages and `sort_rules_by_priority`. They are the fields of a `Collaborators` value, each the function of its inputs that it computes. The suppression stages read a `ContextState`: the context's parsed source, media type, directives, check flag and diagnostics. The priority sort is only assumed to reorder (`SortPermutes`), and only where a contract says so.

The script runtime of the plugin host is represented, for each request, by the sequence of add-diagnostic calls the scripts make while handling it. These calls are an input per request, so they may depend on anything the runtime kept from earlier requests.

## Model

| member | source | states |
|---|---|---|
| Linter.LinterBuilder.Default | src/linter.rs:42-52 | the defaults are directive names "deno-lint-ignore-file" and "deno-lint-ignore", media type TypeScript, no rules and no plugins |
| Linter.LinterBuilder.SetIgnoreFileDirective | src/linter.rs:68-71 | sets the file directive name and leaves every other setting unchanged |
| Linter.LinterBuilder.SetIgnoreDiagnosticDirective | src/linter.rs:76-79 | sets the line directive name and leaves every other setting unchanged |
| Linter.LinterBuilder.SetMediaType | src/linter.rs:84-87 | sets the media type and leaves every other setting unchanged |
| Linter.LinterBuilder.SetRules | src/linter.rs:92-95 | replaces the rule list and leaves every other setting unchanged |
| Linter.LinterBuilder.SetPlugins | src/linter.rs:98-101 | replaces the plugin list and leaves every other setting unchanged |
| Linter.LinterBuilder.Build | src/linter.rs:55-63 | a fresh linter carries exactly the builder's five settings |
| Linter.Linter.constructor | src/linter.rs:113-127 | the linter stores the five settings it is given |
| Linter.CheckUnknownRules | src/linter.rs:186-189 | the check is on if and only if some configured rule has the code "ban-unknown-rule-code" |
| Linter.Linter.Lint | src/linter.rs:129-151 | a parse error is returned unchanged, with no rule run and the rule list untouched; a parsed source is returned together with the pass result over it |
| Linter.Linter.LintWithAst | src/linter.rs:153-163 | the report equals the pass result over the given source with the configuration before the call |
| Linter.Linter.FilterDiagnostics | src/linter.rs:165-179 | the report is the stable line sort of the usage, unknown-code and unused-ignore outputs, concatenated in that order |
| Linter.FilterResultOrdered | src/linter.rs:165-179 | the filtered report is sorted by start line and holds exactly the three stage outputs; on each line it lists them in concatenation order |
| Linter.Linter.LintProgram | src/linter.rs:181-235 | computes the pass result. A file directive without codes gives an empty report, runs no rule and leaves the rule list as it was. Otherwise the rule list becomes its priority-sorted order and every rule runs once, in that order. When the priority sort permutes, the rules run are exactly the configured ones |
| Linter.LintProgramResultShape | src/linter.rs:192-200 | a pass over a file ignored as a whole reports nothing, and every pass result is sorted by start line |
| LintContext.Context.constructor | src/linter.rs:207-216 | the context holds the source, media type, directives and check flag it is given, and no diagnostics yet |
| LintContext.Context.CreateDiagnostic | src/rules/no_inferrable_types.rs:72-79 | the diagnostic carries the file name, code, message and hint given, and the span's byte offsets |
| LintContext.Context.AddDiagnosticWithHint | src/rules/no_inferrable_types.rs:72-79 | appends exactly one diagnostic, with the hint, to the context's diagnostics |
| DiagnosticOrder.SortIsSorted | src/linter.rs:173 | the sorted report is non-decreasing in start line index |
| DiagnosticOrder.SortIsPermutation | src/linter.rs:173 | sorting neither loses nor duplicates a diagnostic (multiset equality) |
| DiagnosticOrder.SortIsStable | src/linter.rs:173 | diagnostics on the same line keep their relative order (`sort_by_key` is stable) |
| DiagnosticOrder.SortByLineIsTheStableSort | src/linter.rs:173 | any line-sorted sequence that keeps each line's diagnostics in input order equals `SortByLine` of the input, so the reference fixes the report uniquely |
| DiagnosticOrder.SortedAgreeingOnLinesEqual | src/linter.rs:173 | two line-sorted sequences with the same diagnostics, in the same order, on every line are equal |
| DiagnosticOrder.InsertionPoint | src/linter.rs:173 | the backward scan finds the position where inserting the diagnostic gives the reference insertion |
| DiagnosticOrder.SortDiagnosticsByLine | src/linter.rs:173 | the loop's output equals the reference stable sort `SortByLine` of its input |
| NoInferrableTypes.CheckCallee | src/rules/no_inferrable_types.rs:81-94 | a callee is reported if and only if it is the plain identifier expected; `super` never is |
| NoInferrableTypes.IsNanOrInfinity | src/rules/no_inferrable_types.rs:96-98 | true exactly for the identifiers "NaN" and "Infinity" |
| NoInferrableTypes.CheckBigIntInit | src/rules/no_inferrable_types.rs:108-135 | a bigint annotation is inferrable exactly for a bigint literal or a `BigInt` call (plain or optional), also under any unary operator |
| NoInferrableTypes.CheckBooleanInit | src/rules/no_inferrable_types.rs:136-154 | a boolean annotation is inferrable exactly for a boolean literal, a `Boolean` call, or any `!` expression |
| NoInferrableTypes.CheckNumberInit | src/rules/no_inferrable_types.rs:155-192 | a number annotation is inferrable exactly for a numeric literal, a `Number` call, `NaN` or `Infinity`, also under any unary operator |
| NoInferrableTypes.CheckStringInit | src/rules/no_inferrable_types.rs:198-214 | a string annotation is inferrable exactly for a string literal, a template or a `String` call |
| NoInferrableTypes.CheckSymbolInit | src/rules/no_inferrable_types.rs:215-223 | a symbol annotation is inferrable exactly for a `Symbol` call |
| NoInferrableTypes.CheckUndefinedInit | src/rules/no_inferrable_types.rs:224-236 | an undefined annotation is inferrable exactly for the identifier `undefined` or any `void` expression |
| NoInferrableTypes.CheckKeywordType | src/rules/no_inferrable_types.rs:100-239 | per keyword kind, the exact set of reported initializers (`null` only for the null literal); every kind outside the seven checked ones is never reported |
| NoInferrableTypes.CheckRefType | src/rules/no_inferrable_types.rs:241-272 | reported if and only if the reference is the plain identifier `RegExp` and the value is a regex literal, a `RegExp` call, `new RegExp` or `new RegExp?.()` |
| NoInferrableTypes.CheckTsType | src/rules/no_inferrable_types.rs:274-280 | only keyword types and `RegExp` references can be reported, each by its own check; `any`, `unknown` and other types never are |
| NoInferrableTypes.DefaultedParamSpan | src/rules/no_inferrable_types.rs:284-294 | a parameter gives at most its own span, and gives it exactly when it is `ident: T = value` with an inferrable `T` |
| NoInferrableTypes.ArrowParamSpan | src/rules/no_inferrable_types.rs:296-310 | an arrow parameter is reported, if at all, at the span of its assignment pattern, and it is reported exactly when it is `ident: T = value` with an inferrable `T` |
| NoInferrableTypes.ClassPropSpan | src/rules/no_inferrable_types.rs:312-323 | readonly and optional properties are never reported; others are reported at their span exactly when they have an identifier key, an initializer and an inferrable annotation |
| NoInferrableTypes.PrivatePropSpan | src/rules/no_inferrable_types.rs:325-334 | readonly and optional private properties are never reported; others are reported exactly when they have an initializer and an inferrable annotation |
| NoInferrableTypes.DeclaratorSpan | src/rules/no_inferrable_types.rs:336-347 | a declarator gives at most its own span, exactly when it is an annotated identifier with an initializer that makes the annotation inferrable |
| NoInferrableTypes.FunctionSpansBound | src/rules/no_inferrable_types.rs:284-294 | a function reports at most one diagnostic per parameter |
| NoInferrableTypes.ArrowSpansBound | src/rules/no_inferrable_types.rs:296-310 | an arrow function reports at most one diagnostic per parameter |
| NoInferrableTypes.VarDeclSpansBound | src/rules/no_inferrable_types.rs:336-347 | a declaration reports at most one diagnostic per declarator |
| NoInferrableTypes.UndefaultedParamsNotReported | src/rules/no_inferrable_types.rs:284-294 | parameters without a default value are never reported |
| NoInferrableTypes.UndefaultedArrowParamsNotReported | src/rules/no_inferrable_types.rs:296-310 | arrow parameters without a default value are never reported |
| NoInferrableTypes.UninitializedDeclaratorsNotReported | src/rules/no_inferrable_types.rs:336-347 | declarators without an initializer are never reported |
| NoInferrableTypes.VarDeclSpansInOrder | src/rules/no_inferrable_types.rs:336-347 | declarators are reported in declaration order |
| NoInferrableTypes.FunctionSpansInOrder | src/rules/no_inferrable_types.rs:284-294 | parameters are reported in parameter order |
| NoInferrableTypes.ArrowSpansInOrder | src/rules/no_inferrable_types.rs:296-310 | arrow parameters are reported in parameter order |
| NoInferrableTypes.ReportedNumberTestCases | src/rules/no_inferrable_types.rs:548-582 | `-Infinity` and `+Number?.('1')` make a number annotation inferrable |
| NoInferrableTypes.ReportedBigIntTestCase | src/rules/no_inferrable_types.rs:443 | `-BigInt?.(10)` makes a `bigint` annotation inferrable |
| NoInferrableTypes.ReportedBooleanTestCase | src/rules/no_inferrable_types.rs:492 | `!0` makes a `boolean` annotation inferrable |
| NoInferrableTypes.ReportedUndefinedTestCase | src/rules/no_inferrable_types.rs:695 | `void someValue` makes an `undefined` annotation inferrable |
| NoInferrableTypes.ReportedRegExpTestCase | src/rules/no_inferrable_types.rs:632-638 | `new RegExp?.('a')` makes a `RegExp` annotation inferrable |
| NoInferrableTypes.AcceptedTestCases | src/rules/no_inferrable_types.rs:414 | `function (a: any = 5, b: any = true, c: any = 'foo') {}` reports none of its parameters: `any` is not inferrable from `5`, `true` or `'foo'` |
| NoInferrableTypes.MinusIsNotNegation | src/rules/no_inferrable_types.rs:143-147 | under a `boolean` annotation `-true` is not reported, while `!true` is: only the `!` operator counts |
| NoInferrableTypes.SuperCallIsNotBuiltin | src/rules/no_inferrable_types.rs:87-93 | a `super(...)` call is never taken for a builtin call, neither under `number` nor under `RegExp` |
| NoInferrableTypes.TwoDeclaratorsTwoDiagnostics | src/rules/no_inferrable_types.rs:702-713 | `const a: number = 0, b: string = 'foo'` reports both declarators, first `a` then `b` |
| NoInferrableTypes.Reported | src/rules/no_inferrable_types.rs:72-79 | one diagnostic per reported span |
| NoInferrableTypes.ReportedFields | src/rules/no_inferrable_types.rs:72-79 | every report carries the code "no-inferrable-types", its message and hint, the file name and its site's byte range |
| NoInferrableTypes.NoInferrableTypesVisitor.constructor | src/rules/no_inferrable_types.rs:68-70 | the visitor works on the context it is given |
| NoInferrableTypes.NoInferrableTypesVisitor.AddDiagnosticHelper | src/rules/no_inferrable_types.rs:72-79 | appends the rule's diagnostic for the span to the context |
| NoInferrableTypes.NoInferrableTypesVisitor.Check | src/rules/no_inferrable_types.rs:274-280 | appends one diagnostic when the annotation is inferrable from the value, nothing otherwise |
| NoInferrableTypes.NoInferrableTypesVisitor.VisitFunction | src/rules/no_inferrable_types.rs:284-294 | appends exactly the diagnostics for the function's reported parameters, in order |
| NoInferrableTypes.NoInferrableTypesVisitor.VisitArrowExpr | src/rules/no_inferrable_types.rs:296-310 | appends exactly the diagnostics for the arrow's reported parameters, in order |
| NoInferrableTypes.NoInferrableTypesVisitor.VisitClassProp | src/rules/no_inferrable_types.rs:312-323 | appends the class property's diagnostic if it is reported, nothing otherwise |
| NoInferrableTypes.NoInferrableTypesVisitor.VisitPrivateProp | src/rules/no_inferrable_types.rs:325-334 | appends the private property's diagnostic if it is reported, nothing otherwise |
| NoInferrableTypes.NoInferrableTypesVisitor.VisitVarDecl | src/rules/no_inferrable_types.rs:336-347 | appends exactly the diagnostics for the reported declarators, in order |
| NoInferrableTypes.NoInferrableTypesVisitor.Visit | src/rules/no_inferrable_types.rs:283-348 | each kind of site is handled by its own visitor method |
| NoInferrableTypes.LintProgram | src/rules/no_inferrable_types.rs:45-56 | a pass appends the diagnostics of every visited site, in visiting order, and nothing else |
| Plugins.PluginCtx.constructor | examples/dlint/plugins.rs:213-217 | a fresh context holds the request's source and file name, and no diagnostics |
| Plugins.OpState.constructor | examples/dlint/plugins.rs:206 | the op state starts with no plugin context |
| Plugins.OpState.Put | examples/dlint/plugins.rs:211-218 | the op state now holds the given context |
| Plugins.OpState.Take | examples/dlint/plugins.rs:221 | returns the held context and leaves the op state without one |
| Plugins.PluginDiagnostic | examples/dlint/plugins.rs:93-133 | no diagnostic if and only if the text is empty or `end` lies beyond its length; otherwise the call's code, message and hint, the context's file name and the call's byte offsets |
| Plugins.OpAddDiagnostic | examples/dlint/plugins.rs:93-133 | appends exactly the diagnostic above: nothing for an empty text or an out-of-range `end`, one diagnostic otherwise |
| Plugins.RecordedAppend | examples/dlint/plugins.rs:93-133 | calls made one after the other record their diagnostics one after the other |
| Plugins.RecordedBound | examples/dlint/plugins.rs:93-133 | each call records at most one diagnostic |
| Plugins.EmptyTextRecordsNothing | examples/dlint/plugins.rs:103-106 | on an empty source text no call records anything |
| Plugins.ValidCallsAllRecorded | examples/dlint/plugins.rs:93-133 | on a non-empty text, calls that end within it are all recorded, the i-th call as the i-th diagnostic |
| Plugins.RecordedFilenames | examples/dlint/plugins.rs:125-131 | every recorded diagnostic carries the request's file name |
| Plugins.SingleCallScenario | examples/dlint/plugins.rs:93-133 | one call covering bytes 0 to 1 gives exactly that diagnostic on a non-empty text and nothing on an empty one |
| Plugins.RunEntryPoint | examples/dlint/plugins.rs:219-220 | running the entry point appends what its calls record, in call order |
| Plugins.HandleRequest | examples/dlint/plugins.rs:208-231 | the response holds exactly what the calls made during this request recorded, starting from an empty context; afterwards the op state holds no context |
| Plugins.RunPluginHost | examples/dlint/plugins.rs:208-231 | one response per request, in arrival order, each holding exactly what that request's calls recorded, so no diagnostic leaks from one request into another; no context is left behind |

## Left out

- `src/main.rs`, the command-line driver, is not part of this model.
- The parser and the two ignore-directive parsers are fields of `Collaborators`; their code is not part of this model. `ControlFlow::analyze` and `Scope::analyze` are functions of the parsed source and enter only through `ruleDiagnostics`, which receives it.
- `FileIgnoreDirective.IgnoreAll` is modelled as "the directive lists no codes", and the meta-rule code as "ban-unknown-rule-code". The files that define them are not part of this model.
- The three suppression stages (`check_ignore_directive_usage`, `ban_unknown_rule_code`, `ban_unused_ignore`) are functions passed in. Only how their outputs are combined and ordered is modelled.
- `sort_rules_by_priority` is a function passed in. Contracts that need it to permute the rules state that as a hypothesis (`SortPermutes`).
- A rule's effect on the context is modelled as the diagnostics it appends: a function of the rule, the source and the media type. Rules are assumed to change nothing else in the context.
- The plugin callbacks in `lint_program` are commented out in the source. A pass therefore never invokes plugins, and the model keeps the plugin list as configuration only.
- Timing and `debug!`/`eprintln!` logging are left out.
- The `sort_by_key` library algorithm is modelled by its result, a stable sort by start line, computed here by insertion.
- The swc traversal (`visit_all_with`) is modelled as the list of declaration sites it visits, in visiting order. Nested sites appear in that list in the order the traversal reaches them.
- Line and column lookup (`line_and_column_index`) is an uninterpreted function of the byte offset. Whether it can fail for an offset past the text, such as a `start` beyond the text when `end` is within it, is not modelled.
- The plugin host's threads, channels and mutex (`LintPluginHost::lint`, `create_plugin_host`) are left out. The host loop is modelled over the requests in arrival order.
- The JavaScript runtime is left out: its start-up, `hostInit`/`hostRequest` and the AST serialisation of `op_get_ctx`. What the scripts do during a request is modelled as the add-diagnostic calls made while it runs, given per request.
- Panics on `unwrap` are left out: channel send and receive failures, and script execution errors.
- Plugins.OpState.Take: requires a context to be present. The source panics when there is none, which cannot happen on the modelled loop.
- Plugins.OpAddDiagnostic: requires a context in the op state. The source's `borrow_mut` panics when there is none, for example on a call made while `hostInit` runs; that panic is not modelled.
- Plugins.RunEntryPoint: requires a context in the op state, for the same reason; calls made outside a request are not modelled.
- Plugins.RunPluginHost: the state the shared script runtime keeps from one request to the next is not modelled. It only enters as the freedom of each request's calls, which are an input per request.
- LintContext.Context.constructor: the file that defines `Context::new` is not part of this model. The new context is assumed to hold the values it is given and no diagnostics.
- LintContext.Context.CreateDiagnostic: the file that defines `add_diagnostic_with_hint` is not part of this model. The diagnostic is assumed to carry the source's specifier as file name, the given code, message and hint, and the span's byte offsets with their line and column.
- LintContext.Context.AddDiagnosticWithHint: for the same reason, it is assumed to append exactly that one diagnostic and to change nothing else in the context.
