/** The `no-inferrable-types` rule: an explicit type annotation is reported
    when the initializer alone already fixes the type. The decision is a
    closed match over a small vocabulary of initializers and annotations;
    the visitors apply it to defaulted parameters, class and private
    properties and variable declarators, appending one diagnostic per
    reported site to the lint context. The syntax-tree traversal itself is
    abstracted as the list of declaration sites it visits, in visiting order. */
module NoInferrableTypes {
  import opened Diagnostics
  import opened Sources
  import opened LintContext

  const Code: string := "no-inferrable-types"
  const Message: string := "inferrable types are not allowed"
  const Hint: string := "Remove the type, it is easily inferrable"

  // ---------------------------------------------------------------- syntax

  datatype Lit = Str | Bool | Null | Num | BigInt | Regex | JsxText

  datatype UnaryOp = Minus | Plus | Bang | Tilde | TypeOf | Void | Delete

  /** How an operator is written in the source. */
  function OpText(op: UnaryOp): string
  {
    match op
    case Minus => "-"
    case Plus => "+"
    case Bang => "!"
    case Tilde => "~"
    case TypeOf => "typeof"
    case Void => "void"
    case Delete => "delete"
  }

  datatype ExprOrSuper = SuperCallee | ExprCallee(expr: Expr)

  /** Initializer expressions; call and `new` arguments play no part and are
      left out, every shape the rule does not look into is `OtherExpr`. */
  datatype Expr =
    | LitExpr(lit: Lit)
    | Ident(sym: string)
    | Call(callee: ExprOrSuper)
    | Unary(op: UnaryOp, arg: Expr)
    | OptChain(base: Expr)
    | New(newCallee: Expr)
    | Tpl
    | OtherExpr

  datatype TsKeywordTypeKind =
    | TsAnyKeyword | TsUnknownKeyword | TsNumberKeyword | TsObjectKeyword
    | TsBooleanKeyword | TsBigIntKeyword | TsStringKeyword | TsSymbolKeyword
    | TsVoidKeyword | TsUndefinedKeyword | TsNullKeyword | TsNeverKeyword
    | TsIntrinsicKeyword

  datatype TsEntityName = EntityIdent(sym: string) | QualifiedName(left: TsEntityName, right: string)

  /** Type annotations: keyword types, type references, and everything else. */
  datatype TsType = KeywordType(kind: TsKeywordTypeKind) | TypeRef(typeName: TsEntityName) | OtherType

  // ---------------------------------------------------- reference shapes

  /** `name(...)` or `name?.(...)`. */
  predicate IsBuiltinCall(e: Expr, name: string)
  {
    e == Call(ExprCallee(Ident(name))) || e == OptChain(Call(ExprCallee(Ident(name))))
  }

  predicate IsNumberValue(e: Expr)
  {
    e == LitExpr(Num) || IsBuiltinCall(e, "Number") || e == Ident("NaN") || e == Ident("Infinity")
  }

  predicate IsBigIntValue(e: Expr)
  {
    e == LitExpr(BigInt) || IsBuiltinCall(e, "BigInt")
  }

  /** The keyword types the rule knows an inferrable initializer for. */
  predicate IsCheckedKeyword(kind: TsKeywordTypeKind)
  {
    kind in {TsBigIntKeyword, TsBooleanKeyword, TsNumberKeyword, TsNullKeyword,
             TsStringKeyword, TsSymbolKeyword, TsUndefinedKeyword}
  }

  // --------------------------------------------------------- the decision

  /** A call is reported when its callee is the plain identifier `expected`. */
  function CheckCallee(callee: ExprOrSuper, expected: string): (report: bool)
    ensures report <==> callee == ExprCallee(Ident(expected))
  {
    match callee
    case ExprCallee(Ident(sym)) => sym == expected
    case _ => false
  }

  function IsNanOrInfinity(sym: string): (r: bool)
    ensures r <==> sym in {"NaN", "Infinity"}
  {
    sym == "NaN" || sym == "Infinity"
  }

  /** Reports a call `expected?.(...)`. */
  function CheckOptChainCall(base: Expr, expected: string): bool
  {
    match base
    case Call(callee) => CheckCallee(callee, expected)
    case _ => false
  }

  /** The `bigint` arm: a bigint literal or a `BigInt` call, also under any
      unary operator. */
  function CheckBigIntInit(value: Expr): (report: bool)
    ensures report <==> IsBigIntValue(value) || (value.Unary? && IsBigIntValue(value.arg))
  {
    match value
    case LitExpr(BigInt) => true
    case Call(callee) => CheckCallee(callee, "BigInt")
    case Unary(_, arg) => (
      match arg
      case LitExpr(BigInt) => true
      case Call(callee) => CheckCallee(callee, "BigInt")
      case OptChain(base) => CheckOptChainCall(base, "BigInt")
      case _ => false)
    case OptChain(base) => CheckOptChainCall(base, "BigInt")
    case _ => false
  }

  /** The `boolean` arm: a boolean literal, a `Boolean` call or any negation. */
  function CheckBooleanInit(value: Expr): (report: bool)
    ensures report <==> value == LitExpr(Bool) || IsBuiltinCall(value, "Boolean") || (value.Unary? && value.op == Bang)
  {
    match value
    case LitExpr(Bool) => true
    case Call(callee) => CheckCallee(callee, "Boolean")
    case Unary(op, _) => OpText(op) == "!"
    case OptChain(base) => CheckOptChainCall(base, "Boolean")
    case _ => false
  }

  /** The `number` arm: a numeric literal, a `Number` call, `NaN` or
      `Infinity`, also under any unary operator. */
  function CheckNumberInit(value: Expr): (report: bool)
    ensures report <==> IsNumberValue(value) || (value.Unary? && IsNumberValue(value.arg))
  {
    match value
    case LitExpr(Num) => true
    case Call(callee) => CheckCallee(callee, "Number")
    case Ident(sym) => IsNanOrInfinity(sym)
    case Unary(_, arg) => (
      match arg
      case LitExpr(Num) => true
      case Call(callee) => CheckCallee(callee, "Number")
      case Ident(sym) => IsNanOrInfinity(sym)
      case OptChain(base) => CheckOptChainCall(base, "Number")
      case _ => false)
    case OptChain(base) => CheckOptChainCall(base, "Number")
    case _ => false
  }

  /** The `string` arm: a string literal, a template or a `String` call. */
  function CheckStringInit(value: Expr): (report: bool)
    ensures report <==> value == LitExpr(Str) || value == Tpl || IsBuiltinCall(value, "String")
  {
    match value
    case LitExpr(Str) => true
    case Tpl => true
    case Call(callee) => CheckCallee(callee, "String")
    case OptChain(base) => CheckOptChainCall(base, "String")
    case _ => false
  }

  /** The `symbol` arm: a `Symbol` call. */
  function CheckSymbolInit(value: Expr): (report: bool)
    ensures report <==> IsBuiltinCall(value, "Symbol")
  {
    match value
    case Call(callee) => CheckCallee(callee, "Symbol")
    case OptChain(base) => CheckOptChainCall(base, "Symbol")
    case _ => false
  }

  /** The `undefined` arm: the identifier `undefined` or any `void` expression. */
  function CheckUndefinedInit(value: Expr): (report: bool)
    ensures report <==> value == Ident("undefined") || (value.Unary? && value.op == Void)
  {
    match value
    case Ident(sym) => sym == "undefined"
    case Unary(op, _) => OpText(op) == "void"
    case _ => false
  }

  function CheckKeywordType(value: Expr, kind: TsKeywordTypeKind): (report: bool)
    ensures kind == TsBigIntKeyword ==>
      (report <==> IsBigIntValue(value) || (value.Unary? && IsBigIntValue(value.arg)))
    ensures kind == TsBooleanKeyword ==>
      (report <==> value == LitExpr(Bool) || IsBuiltinCall(value, "Boolean") || (value.Unary? && value.op == Bang))
    ensures kind == TsNumberKeyword ==>
      (report <==> IsNumberValue(value) || (value.Unary? && IsNumberValue(value.arg)))
    ensures kind == TsNullKeyword ==> (report <==> value == LitExpr(Null))
    ensures kind == TsStringKeyword ==>
      (report <==> value == LitExpr(Str) || value == Tpl || IsBuiltinCall(value, "String"))
    ensures kind == TsSymbolKeyword ==> (report <==> IsBuiltinCall(value, "Symbol"))
    ensures kind == TsUndefinedKeyword ==>
      (report <==> value == Ident("undefined") || (value.Unary? && value.op == Void))
    ensures !IsCheckedKeyword(kind) ==> !report
  {
    match kind
    case TsBigIntKeyword => CheckBigIntInit(value)
    case TsBooleanKeyword => CheckBooleanInit(value)
    case TsNumberKeyword => CheckNumberInit(value)
    case TsNullKeyword => value == LitExpr(Null)
    case TsStringKeyword => CheckStringInit(value)
    case TsSymbolKeyword => CheckSymbolInit(value)
    case TsUndefinedKeyword => CheckUndefinedInit(value)
    case _ => false
  }

  /** Only a reference to the plain identifier `RegExp` is checked. */
  function CheckRefType(value: Expr, typeName: TsEntityName): (report: bool)
    ensures report <==>
      && typeName == EntityIdent("RegExp")
      && (|| value == LitExpr(Regex)
          || IsBuiltinCall(value, "RegExp")
          || value == New(Ident("RegExp"))
          || value == New(OptChain(Call(ExprCallee(Ident("RegExp"))))))
  {
    match typeName
    case EntityIdent(sym) =>
      if sym != "RegExp" then false
      else (
        match value
        case LitExpr(Regex) => true
        case Call(callee) => CheckCallee(callee, "RegExp")
        case New(Ident(sym')) => sym' == "RegExp"
        case New(OptChain(base)) => CheckOptChainCall(base, "RegExp")
        case OptChain(base) => CheckOptChainCall(base, "RegExp")
        case _ => false)
    case QualifiedName(_, _) => false
  }

  /** Whether an initializer makes its annotation inferrable. */
  function CheckTsType(value: Expr, ann: TsType): (report: bool)
    ensures report ==> ann.KeywordType? || ann == TypeRef(EntityIdent("RegExp"))
    ensures ann.KeywordType? ==> (report <==> CheckKeywordType(value, ann.kind))
    ensures ann.TypeRef? ==> (report <==> CheckRefType(value, ann.typeName))
    ensures ann in {KeywordType(TsAnyKeyword), KeywordType(TsUnknownKeyword), OtherType} ==> !report
  {
    match ann
    case KeywordType(kind) => CheckKeywordType(value, kind)
    case TypeRef(typeName) => CheckRefType(value, typeName)
    case OtherType => false
  }

  // ------------------------------------------------- declaration sites

  datatype Pat =
    | IdentPat(name: string, typeAnn: Option<TsType>)
    | AssignPat(left: Pat, right: Expr, span: Span)
    | OtherPat

  /** A function parameter: its pattern and the span of the whole parameter. */
  datatype Param = Param(pat: Pat, span: Span)

  datatype PropName = PropIdent(sym: string) | PropStr(value: string) | PropNum | PropComputed | PropBigInt

  datatype ClassProp = ClassProp(
    key: PropName, value: Option<Expr>, typeAnn: Option<TsType>,
    readonly: bool, isOptional: bool, span: Span)

  datatype PrivateProp = PrivateProp(
    value: Option<Expr>, typeAnn: Option<TsType>,
    readonly: bool, isOptional: bool, span: Span)

  datatype VarDeclarator = VarDeclarator(name: Pat, init: Option<Expr>, span: Span)

  /** The nodes the rule's visitor reacts to. */
  datatype Site =
    | FunctionSite(params: seq<Param>)
    | ArrowSite(arrowParams: seq<Pat>)
    | ClassPropSite(classProp: ClassProp)
    | PrivatePropSite(privateProp: PrivateProp)
    | VarDeclSite(decls: seq<VarDeclarator>)

  // ------------------------------------------ where diagnostics are reported

  /** The span reported for a defaulted, annotated parameter pattern `x: T = v`. */
  function DefaultedParamSpan(pat: Pat, span: Span): (r: seq<Span>)
    ensures r == [] || r == [span]
    ensures r != [] <==>
      && pat.AssignPat? && pat.left.IdentPat? && pat.left.typeAnn.Some?
      && CheckTsType(pat.right, pat.left.typeAnn.value)
  {
    match pat
    case AssignPat(IdentPat(_, Some(ann)), right, _) => if CheckTsType(right, ann) then [span] else []
    case _ => []
  }

  /** An arrow parameter is reported at the span of its assignment pattern. */
  function ArrowParamSpan(pat: Pat): (r: seq<Span>)
    ensures r == [] || (pat.AssignPat? && r == [pat.span])
    ensures r != [] <==>
      && pat.AssignPat? && pat.left.IdentPat? && pat.left.typeAnn.Some?
      && CheckTsType(pat.right, pat.left.typeAnn.value)
  {
    if pat.AssignPat? then DefaultedParamSpan(pat, pat.span) else []
  }

  function DeclaratorSpan(decl: VarDeclarator): (r: seq<Span>)
    ensures r == [] || r == [decl.span]
    ensures r != [] <==>
      && decl.init.Some? && decl.name.IdentPat? && decl.name.typeAnn.Some?
      && CheckTsType(decl.init.value, decl.name.typeAnn.value)
  {
    match (decl.init, decl.name)
    case (Some(init), IdentPat(_, Some(ann))) => if CheckTsType(init, ann) then [decl.span] else []
    case _ => []
  }

  function ClassPropSpan(prop: ClassProp): (r: seq<Span>)
    ensures r == [] || r == [prop.span]
    ensures prop.readonly || prop.isOptional ==> r == []
    ensures r != [] <==>
      && !prop.readonly && !prop.isOptional
      && prop.value.Some? && prop.key.PropIdent? && prop.typeAnn.Some?
      && CheckTsType(prop.value.value, prop.typeAnn.value)
  {
    if prop.readonly || prop.isOptional then []
    else match (prop.value, prop.key, prop.typeAnn)
      case (Some(init), PropIdent(_), Some(ann)) => if CheckTsType(init, ann) then [prop.span] else []
      case _ => []
  }

  function PrivatePropSpan(prop: PrivateProp): (r: seq<Span>)
    ensures r == [] || r == [prop.span]
    ensures prop.readonly || prop.isOptional ==> r == []
    ensures r != [] <==>
      && !prop.readonly && !prop.isOptional
      && prop.value.Some? && prop.typeAnn.Some?
      && CheckTsType(prop.value.value, prop.typeAnn.value)
  {
    if prop.readonly || prop.isOptional then []
    else match (prop.value, prop.typeAnn)
      case (Some(init), Some(ann)) => if CheckTsType(init, ann) then [prop.span] else []
      case _ => []
  }

  /** The spans contributed by `xs`, element after element. */
  function Spans<T>(xs: seq<T>, f: T -> seq<Span>): seq<Span>
  {
    if xs == [] then [] else Spans(xs[..|xs| - 1], f) + f(xs[|xs| - 1])
  }

  function FunctionSpans(params: seq<Param>): seq<Span>
  {
    Spans(params, (p: Param) => DefaultedParamSpan(p.pat, p.span))
  }

  function ArrowSpans(params: seq<Pat>): seq<Span>
  {
    Spans(params, ArrowParamSpan)
  }

  function VarDeclSpans(decls: seq<VarDeclarator>): seq<Span>
  {
    Spans(decls, DeclaratorSpan)
  }

  function SiteSpans(site: Site): seq<Span>
  {
    match site
    case FunctionSite(params) => FunctionSpans(params)
    case ArrowSite(params) => ArrowSpans(params)
    case ClassPropSite(prop) => ClassPropSpan(prop)
    case PrivatePropSite(prop) => PrivatePropSpan(prop)
    case VarDeclSite(decls) => VarDeclSpans(decls)
  }

  function ProgramSpans(sites: seq<Site>): seq<Span>
  {
    Spans(sites, SiteSpans)
  }

  // ------------------------------------------------------------- lemmas

  lemma {:induction false} SpansAppend<T>(a: seq<T>, b: seq<T>, f: T -> seq<Span>)
    ensures Spans(a + b, f) == Spans(a, f) + Spans(b, f)
    decreases |b|
  {
    if b == [] {
      assert a + b == a;
    } else {
      var b' := b[..|b| - 1];
      assert (a + b)[..|a + b| - 1] == a + b';
      SpansAppend(a, b', f);
    }
  }

  lemma {:induction false} SpansAtMostOneEach<T>(xs: seq<T>, f: T -> seq<Span>)
    requires forall i :: 0 <= i < |xs| ==> |f(xs[i])| <= 1
    ensures |Spans(xs, f)| <= |xs|
    decreases |xs|
  {
    if xs != [] {
      SpansAtMostOneEach(xs[..|xs| - 1], f);
    }
  }

  lemma {:induction false} SpansNone<T>(xs: seq<T>, f: T -> seq<Span>)
    requires forall i :: 0 <= i < |xs| ==> f(xs[i]) == []
    ensures Spans(xs, f) == []
    decreases |xs|
  {
    if xs != [] {
      SpansNone(xs[..|xs| - 1], f);
    }
  }

  /** Each parameter contributes at most one diagnostic. */
  lemma {:induction false} FunctionSpansBound(params: seq<Param>)
    ensures |FunctionSpans(params)| <= |params|
  {
    SpansAtMostOneEach(params, (p: Param) => DefaultedParamSpan(p.pat, p.span));
  }

  lemma {:induction false} ArrowSpansBound(params: seq<Pat>)
    ensures |ArrowSpans(params)| <= |params|
  {
    SpansAtMostOneEach(params, ArrowParamSpan);
  }

  /** Each declarator contributes at most one diagnostic. */
  lemma {:induction false} VarDeclSpansBound(decls: seq<VarDeclarator>)
    ensures |VarDeclSpans(decls)| <= |decls|
  {
    SpansAtMostOneEach(decls, DeclaratorSpan);
  }

  /** Parameters without a default value are never reported. */
  lemma {:induction false} UndefaultedParamsNotReported(params: seq<Param>)
    requires forall i :: 0 <= i < |params| ==> !params[i].pat.AssignPat?
    ensures FunctionSpans(params) == []
  {
    SpansNone(params, (p: Param) => DefaultedParamSpan(p.pat, p.span));
  }

  lemma {:induction false} UndefaultedArrowParamsNotReported(params: seq<Pat>)
    requires forall i :: 0 <= i < |params| ==> !params[i].AssignPat?
    ensures ArrowSpans(params) == []
  {
    SpansNone(params, ArrowParamSpan);
  }

  /** Declarators without an initializer are never reported. */
  lemma {:induction false} UninitializedDeclaratorsNotReported(decls: seq<VarDeclarator>)
    requires forall i :: 0 <= i < |decls| ==> decls[i].init.None?
    ensures VarDeclSpans(decls) == []
  {
    SpansNone(decls, DeclaratorSpan);
  }

  /** Declarators are reported in declaration order: a declaration list
      split in two reports the first part's diagnostics first. */
  lemma {:induction false} VarDeclSpansInOrder(a: seq<VarDeclarator>, b: seq<VarDeclarator>)
    ensures VarDeclSpans(a + b) == VarDeclSpans(a) + VarDeclSpans(b)
  {
    SpansAppend(a, b, DeclaratorSpan);
  }

  lemma {:induction false} ArrowSpansInOrder(a: seq<Pat>, b: seq<Pat>)
    ensures ArrowSpans(a + b) == ArrowSpans(a) + ArrowSpans(b)
  {
    SpansAppend(a, b, ArrowParamSpan);
  }

  lemma {:induction false} FunctionSpansInOrder(a: seq<Param>, b: seq<Param>)
    ensures FunctionSpans(a + b) == FunctionSpans(a) + FunctionSpans(b)
  {
    SpansAppend(a, b, (p: Param) => DefaultedParamSpan(p.pat, p.span));
  }

  /** Cases from the rule's own test table that must be reported. */
  lemma ReportedNumberTestCases()
    // const a: number = -Infinity
    ensures CheckKeywordType(Unary(Minus, Ident("Infinity")), TsNumberKeyword)
    // const a: number = +Number?.('1')
    ensures CheckKeywordType(Unary(Plus, OptChain(Call(ExprCallee(Ident("Number"))))), TsNumberKeyword)
  {
  }

  /** `const a: bigint = -BigInt?.(10)` is reported. */
  lemma ReportedBigIntTestCase()
    ensures CheckKeywordType(Unary(Minus, OptChain(Call(ExprCallee(Ident("BigInt"))))), TsBigIntKeyword)
  {
  }

  /** `const a: boolean = !0` is reported. */
  lemma ReportedBooleanTestCase()
    ensures CheckKeywordType(Unary(Bang, LitExpr(Num)), TsBooleanKeyword)
  {
  }

  /** `const a: undefined = void someValue` is reported. */
  lemma ReportedUndefinedTestCase()
    ensures CheckKeywordType(Unary(Void, Ident("someValue")), TsUndefinedKeyword)
  {
  }

  lemma ReportedRegExpTestCase()
    // const a: RegExp = new RegExp?.('a')
    ensures CheckRefType(New(OptChain(Call(ExprCallee(Ident("RegExp"))))), EntityIdent("RegExp"))
  {
  }

  /** `function (a: any = 5, b: any = true, c: any = 'foo') {}` reports
      none of its three parameters. */
  lemma AcceptedTestCases(s1: Span, s2: Span, s3: Span, p1: Span, p2: Span, p3: Span)
    ensures !CheckTsType(LitExpr(Num), KeywordType(TsAnyKeyword))
    ensures !CheckTsType(LitExpr(Bool), KeywordType(TsAnyKeyword))
    ensures !CheckTsType(LitExpr(Str), KeywordType(TsAnyKeyword))
    ensures FunctionSpans([
      Param(AssignPat(IdentPat("a", Some(KeywordType(TsAnyKeyword))), LitExpr(Num), s1), p1),
      Param(AssignPat(IdentPat("b", Some(KeywordType(TsAnyKeyword))), LitExpr(Bool), s2), p2),
      Param(AssignPat(IdentPat("c", Some(KeywordType(TsAnyKeyword))), LitExpr(Str), s3), p3)]) == []
  {
    var a := Param(AssignPat(IdentPat("a", Some(KeywordType(TsAnyKeyword))), LitExpr(Num), s1), p1);
    var b := Param(AssignPat(IdentPat("b", Some(KeywordType(TsAnyKeyword))), LitExpr(Bool), s2), p2);
    var c := Param(AssignPat(IdentPat("c", Some(KeywordType(TsAnyKeyword))), LitExpr(Str), s3), p3);
    var f := (p: Param) => DefaultedParamSpan(p.pat, p.span);
    forall p | p in [a, b, c]
      ensures FunctionSpans([p]) == []
    {
      assert [p][..0] == [];
      assert f(p) == [];
      assert Spans([p], f) == Spans([p][..0], f) + f(p);
    }
    FunctionSpansInOrder([a], [b]);
    FunctionSpansInOrder([a, b], [c]);
    assert [a] + [b] == [a, b];
    assert [a, b] + [c] == [a, b, c];
  }

  /** Under a `boolean` annotation only `!` counts as a negation: `-true` is
      not reported. */
  lemma MinusIsNotNegation()
    ensures !CheckKeywordType(Unary(Minus, LitExpr(Bool)), TsBooleanKeyword)
    ensures CheckKeywordType(Unary(Bang, LitExpr(Bool)), TsBooleanKeyword)
  {
  }

  /** A call through `super` is never a builtin call. */
  lemma SuperCallIsNotBuiltin()
    ensures !CheckKeywordType(Call(SuperCallee), TsNumberKeyword)
    ensures !CheckRefType(Call(SuperCallee), EntityIdent("RegExp"))
  {
  }

  /** `const a: number = 0, b: string = 'foo'` reports both declarators, in order. */
  lemma TwoDeclaratorsTwoDiagnostics(s1: Span, s2: Span)
    ensures VarDeclSpans([
      VarDeclarator(IdentPat("a", Some(KeywordType(TsNumberKeyword))), Some(LitExpr(Num)), s1),
      VarDeclarator(IdentPat("b", Some(KeywordType(TsStringKeyword))), Some(LitExpr(Str)), s2)])
      == [s1, s2]
  {
    var d1 := VarDeclarator(IdentPat("a", Some(KeywordType(TsNumberKeyword))), Some(LitExpr(Num)), s1);
    var d2 := VarDeclarator(IdentPat("b", Some(KeywordType(TsStringKeyword))), Some(LitExpr(Str)), s2);
    assert [d1, d2][..1] == [d1];
    assert [d1][..0] == [];
    assert DeclaratorSpan(d1) == [s1];
    assert DeclaratorSpan(d2) == [s2];
    assert VarDeclSpans([d1]) == Spans([d1][..0], DeclaratorSpan) + DeclaratorSpan(d1);
  }

  // --------------------------------------------------------- the visitor

  /** The diagnostics reported at `spans`, in order. */
  function Reported(context: Context, spans: seq<Span>): (ds: seq<LintDiagnostic>)
    ensures |ds| == |spans|
  {
    if spans == [] then []
    else Reported(context, spans[..|spans| - 1]) + [context.CreateDiagnostic(spans[|spans| - 1], Code, Message, Some(Hint))]
  }

  /** Every reported diagnostic carries the rule's code, message and hint,
      the file's name and the byte range of its site. */
  lemma {:induction false} ReportedFields(context: Context, spans: seq<Span>)
    ensures forall i :: 0 <= i < |spans| ==>
      var d := Reported(context, spans)[i];
      && d.code == Code && d.message == Message && d.hint == Some(Hint)
      && d.filename == context.source.specifier
      && d.range.start.byteIndex == spans[i].lo && d.range.end.byteIndex == spans[i].hi
    decreases |spans|
  {
    if spans != [] {
      var spans' := spans[..|spans| - 1];
      ReportedFields(context, spans');
      assert forall i :: 0 <= i < |spans'| ==> spans[i] == spans'[i];
    }
  }

  lemma {:induction false} ReportedAppend(context: Context, a: seq<Span>, b: seq<Span>)
    ensures Reported(context, a + b) == Reported(context, a) + Reported(context, b)
    decreases |b|
  {
    if b == [] {
      assert a + b == a;
    } else {
      var b' := b[..|b| - 1];
      assert (a + b)[..|a + b| - 1] == a + b';
      ReportedAppend(context, a, b');
    }
  }

  /** Appending the reports for `next` to a context that holds the reports
      for `done` leaves the reports for `done + next`. */
  lemma ReportedStep(context: Context, d0: seq<LintDiagnostic>, before: seq<LintDiagnostic>,
                     after: seq<LintDiagnostic>, done: seq<Span>, next: seq<Span>)
    requires before == d0 + Reported(context, done)
    requires after == before + Reported(context, next)
    ensures after == d0 + Reported(context, done + next)
  {
    ReportedAppend(context, done, next);
  }

  class NoInferrableTypesVisitor {
    const context: Context

    constructor (context: Context)
      ensures this.context == context
    {
      this.context := context;
    }

    method AddDiagnosticHelper(span: Span)
      modifies context
      ensures context.diagnostics == old(context.diagnostics) + Reported(context, [span])
    {
      context.AddDiagnosticWithHint(span, Code, Message, Hint);
    }

    /** Reports `span` when `value` makes the annotation `ann` inferrable. */
    method Check(value: Expr, ann: TsType, span: Span)
      modifies context
      ensures context.diagnostics ==
        old(context.diagnostics) + Reported(context, if CheckTsType(value, ann) then [span] else [])
    {
      if CheckTsType(value, ann) {
        AddDiagnosticHelper(span);
      }
    }

    method VisitFunction(params: seq<Param>)
      modifies context
      ensures context.diagnostics == old(context.diagnostics) + Reported(context, FunctionSpans(params))
    {
      ghost var d0 := context.diagnostics;
      for i := 0 to |params|
        invariant context.diagnostics == d0 + Reported(context, FunctionSpans(params[..i]))
      {
        ghost var before := context.diagnostics;
        var param := params[i];
        if param.pat.AssignPat? && param.pat.left.IdentPat? && param.pat.left.typeAnn.Some? {
          Check(param.pat.right, param.pat.left.typeAnn.value, param.span);
        }
        ReportedStep(context, d0, before, context.diagnostics, FunctionSpans(params[..i]), DefaultedParamSpan(param.pat, param.span));
        assert params[..i + 1][..i] == params[..i];
      }
      assert params[..|params|] == params;
    }

    method VisitArrowExpr(params: seq<Pat>)
      modifies context
      ensures context.diagnostics == old(context.diagnostics) + Reported(context, ArrowSpans(params))
    {
      ghost var d0 := context.diagnostics;
      for i := 0 to |params|
        invariant context.diagnostics == d0 + Reported(context, ArrowSpans(params[..i]))
      {
        ghost var before := context.diagnostics;
        var pat := params[i];
        if pat.AssignPat? && pat.left.IdentPat? && pat.left.typeAnn.Some? {
          Check(pat.right, pat.left.typeAnn.value, pat.span);
        }
        ReportedStep(context, d0, before, context.diagnostics, ArrowSpans(params[..i]), ArrowParamSpan(pat));
        assert params[..i + 1][..i] == params[..i];
      }
      assert params[..|params|] == params;
    }

    method VisitClassProp(prop: ClassProp)
      modifies context
      ensures context.diagnostics == old(context.diagnostics) + Reported(context, ClassPropSpan(prop))
    {
      if prop.readonly || prop.isOptional {
        return;
      }
      if prop.value.Some? && prop.key.PropIdent? && prop.typeAnn.Some? {
        Check(prop.value.value, prop.typeAnn.value, prop.span);
      }
    }

    method VisitPrivateProp(prop: PrivateProp)
      modifies context
      ensures context.diagnostics == old(context.diagnostics) + Reported(context, PrivatePropSpan(prop))
    {
      if prop.readonly || prop.isOptional {
        return;
      }
      if prop.value.Some? && prop.typeAnn.Some? {
        Check(prop.value.value, prop.typeAnn.value, prop.span);
      }
    }

    method VisitVarDecl(decls: seq<VarDeclarator>)
      modifies context
      ensures context.diagnostics == old(context.diagnostics) + Reported(context, VarDeclSpans(decls))
    {
      ghost var d0 := context.diagnostics;
      for i := 0 to |decls|
        invariant context.diagnostics == d0 + Reported(context, VarDeclSpans(decls[..i]))
      {
        ghost var before := context.diagnostics;
        var decl := decls[i];
        if decl.init.Some? && decl.name.IdentPat? && decl.name.typeAnn.Some? {
          Check(decl.init.value, decl.name.typeAnn.value, decl.span);
        }
        ReportedStep(context, d0, before, context.diagnostics, VarDeclSpans(decls[..i]), DeclaratorSpan(decl));
        assert decls[..i + 1][..i] == decls[..i];
      }
      assert decls[..|decls|] == decls;
    }

    method Visit(site: Site)
      modifies context
      ensures context.diagnostics == old(context.diagnostics) + Reported(context, SiteSpans(site))
    {
      match site
      case FunctionSite(params) => VisitFunction(params);
      case ArrowSite(params) => VisitArrowExpr(params);
      case ClassPropSite(prop) => VisitClassProp(prop);
      case PrivatePropSite(prop) => VisitPrivateProp(prop);
      case VarDeclSite(decls) => VisitVarDecl(decls);
    }
  }

  lemma ProgramSpansStep(sites: seq<Site>, i: nat)
    requires i < |sites|
    ensures ProgramSpans(sites[..i + 1]) == ProgramSpans(sites[..i]) + SiteSpans(sites[i])
  {
    assert sites[..i + 1][..i] == sites[..i];
  }

  /** The rule's pass over a program, given the sites its traversal visits. */
  method LintProgram(context: Context, sites: seq<Site>)
    modifies context
    ensures context.diagnostics == old(context.diagnostics) + Reported(context, ProgramSpans(sites))
  {
    ghost var d0 := context.diagnostics;
    var visitor := new NoInferrableTypesVisitor(context);
    for i := 0 to |sites|
      invariant visitor.context == context
      invariant context.diagnostics == d0 + Reported(context, ProgramSpans(sites[..i]))
    {
      ghost var before := context.diagnostics;
      visitor.Visit(sites[i]);
      ReportedStep(context, d0, before, context.diagnostics, ProgramSpans(sites[..i]), SiteSpans(sites[i]));
      ProgramSpansStep(sites, i);
    }
    assert sites[..|sites|] == sites;
  }
}
