/** The sequential part of the plugin host: the per-request `PluginCtx` held
    in the runtime's op state, the guarded append of `op_add_diagnostic`, and
    the request loop that installs a fresh context, runs the plugins' entry
    point, takes the context back out and answers with its diagnostics. The
    script runtime is represented by what it does to the op state: the
    sequence of add-diagnostic calls its entry point makes for a request. */
module Plugins {
  import opened Diagnostics
  import opened Sources

  /** The width of the offsets the script passes in. */
  newtype u32 = x: int | 0 <= x < 0x1_0000_0000

  datatype PluginLintRequest = PluginLintRequest(filename: string, parsedSource: ParsedSource)

  datatype PluginLintResponse = PluginLintResponse(diagnostics: seq<LintDiagnostic>)

  /** One call of the add-diagnostic op, with its arguments. */
  datatype AddDiagnosticCall = AddDiagnosticCall(
    code: string, message: string, hint: Option<string>, start: u32, end: u32)

  /** The state visible to the scripts during one request. */
  class PluginCtx {
    const parsedSource: ParsedSource
    const filename: string
    var diagnostics: seq<LintDiagnostic>

    constructor (parsedSource: ParsedSource, filename: string)
      ensures this.parsedSource == parsedSource && this.filename == filename
      ensures diagnostics == []
    {
      this.parsedSource := parsedSource;
      this.filename := filename;
      diagnostics := [];
    }
  }

  /** The runtime's op state, as far as it concerns the plugin context. */
  class OpState {
    var pluginCtx: PluginCtx?

    constructor ()
      ensures pluginCtx == null
    {
      pluginCtx := null;
    }

    method Put(ctx: PluginCtx)
      modifies this
      ensures pluginCtx == ctx
    {
      pluginCtx := ctx;
    }

    method Take() returns (ctx: PluginCtx)
      requires pluginCtx != null
      modifies this
      ensures ctx == old(pluginCtx) && pluginCtx == null
    {
      ctx := pluginCtx;
      pluginCtx := null;
    }
  }

  /** The diagnostic one add-diagnostic call records, or `None` when the
      source text is empty or `end` lies beyond it. */
  function PluginDiagnostic(filename: string, source: ParsedSource, call: AddDiagnosticCall): (d: Option<LintDiagnostic>)
    ensures d.None? <==> |source.textInfo.text| == 0 || |source.textInfo.text| < call.end as int
    ensures d.Some? ==>
      && d.value.filename == filename
      && d.value.code == call.code && d.value.message == call.message && d.value.hint == call.hint
      && d.value.range.start.byteIndex == call.start as int
      && d.value.range.end.byteIndex == call.end as int
  {
    var text := source.textInfo.text;
    if |text| == 0 then None
    else if |text| < call.end as int then None
    else
      var startLoc := source.textInfo.lineAndColumnIndex(call.start as nat);
      var endLoc := source.textInfo.lineAndColumnIndex(call.end as nat);
      Some(LintDiagnostic(
        Range(Position(call.start as nat, startLoc.lineIndex, startLoc.columnIndex),
              Position(call.end as nat, endLoc.lineIndex, endLoc.columnIndex)),
        filename, call.code, call.message, call.hint))
  }

  function AsSeq<T>(o: Option<T>): seq<T>
  {
    if o.Some? then [o.value] else []
  }

  /** What a run of add-diagnostic calls records for one request, in call order. */
  function Recorded(filename: string, source: ParsedSource, calls: seq<AddDiagnosticCall>): seq<LintDiagnostic>
  {
    if calls == [] then []
    else Recorded(filename, source, calls[..|calls| - 1]) + AsSeq(PluginDiagnostic(filename, source, calls[|calls| - 1]))
  }

  /** The response the host sends for `request` when the scripts make
      `calls` while handling it. */
  function Respond(request: PluginLintRequest, calls: seq<AddDiagnosticCall>): PluginLintResponse
  {
    PluginLintResponse(Recorded(request.filename, request.parsedSource, calls))
  }

  // ------------------------------------------------------------- lemmas

  /** Calls made one after the other record their diagnostics one after the other. */
  lemma {:induction false} RecordedAppend(filename: string, source: ParsedSource, a: seq<AddDiagnosticCall>, b: seq<AddDiagnosticCall>)
    ensures Recorded(filename, source, a + b) == Recorded(filename, source, a) + Recorded(filename, source, b)
    decreases |b|
  {
    if b == [] {
      assert a + b == a;
    } else {
      var b' := b[..|b| - 1];
      assert (a + b)[..|a + b| - 1] == a + b';
      RecordedAppend(filename, source, a, b');
    }
  }

  /** Each call records at most one diagnostic. */
  lemma {:induction false} RecordedBound(filename: string, source: ParsedSource, calls: seq<AddDiagnosticCall>)
    ensures |Recorded(filename, source, calls)| <= |calls|
    decreases |calls|
  {
    if calls != [] {
      RecordedBound(filename, source, calls[..|calls| - 1]);
    }
  }

  /** On an empty source text nothing is ever recorded. */
  lemma {:induction false} EmptyTextRecordsNothing(filename: string, source: ParsedSource, calls: seq<AddDiagnosticCall>)
    requires |source.textInfo.text| == 0
    ensures Recorded(filename, source, calls) == []
    decreases |calls|
  {
    if calls != [] {
      EmptyTextRecordsNothing(filename, source, calls[..|calls| - 1]);
    }
  }

  /** When every call ends within a non-empty text, every call is recorded,
      the i-th call as the i-th diagnostic. */
  lemma {:induction false} ValidCallsAllRecorded(filename: string, source: ParsedSource, calls: seq<AddDiagnosticCall>)
    requires |source.textInfo.text| > 0
    requires forall i :: 0 <= i < |calls| ==> calls[i].end as int <= |source.textInfo.text|
    ensures var r := Recorded(filename, source, calls);
      && |r| == |calls|
      && forall i :: 0 <= i < |calls| ==> Some(r[i]) == PluginDiagnostic(filename, source, calls[i])
    decreases |calls|
  {
    if calls != [] {
      ValidCallsAllRecorded(filename, source, calls[..|calls| - 1]);
    }
  }

  /** Every diagnostic of a request carries that request's file name. */
  lemma {:induction false} RecordedFilenames(filename: string, source: ParsedSource, calls: seq<AddDiagnosticCall>)
    ensures forall d :: d in Recorded(filename, source, calls) ==> d.filename == filename
    decreases |calls|
  {
    if calls != [] {
      RecordedFilenames(filename, source, calls[..|calls| - 1]);
    }
  }

  /** A plugin that calls add-diagnostic("x", "msg", no hint, 0, 1) once gets
      exactly that diagnostic back on a non-empty text, and nothing on an
      empty one. */
  lemma SingleCallScenario(filename: string, source: ParsedSource)
    ensures var r := Recorded(filename, source, [AddDiagnosticCall("x", "msg", None, 0, 1)]);
      && (|source.textInfo.text| == 0 ==> r == [])
      && (|source.textInfo.text| > 0 ==>
            |r| == 1 && r[0].code == "x" && r[0].filename == filename
            && r[0].range.start.byteIndex == 0 && r[0].range.end.byteIndex == 1)
  {
    var calls := [AddDiagnosticCall("x", "msg", None, 0, 1)];
    assert calls[..0] == [];
  }

  // ------------------------------------------------------------- the ops

  method OpAddDiagnostic(state: OpState, code: string, message: string, hint: Option<string>, start: u32, end: u32)
    requires state.pluginCtx != null
    modifies state.pluginCtx
    ensures var ctx := state.pluginCtx;
      var text := ctx.parsedSource.textInfo.text;
      && ctx.diagnostics == old(ctx.diagnostics)
           + AsSeq(PluginDiagnostic(ctx.filename, ctx.parsedSource, AddDiagnosticCall(code, message, hint, start, end)))
      && (|text| == 0 || |text| < end as int ==> ctx.diagnostics == old(ctx.diagnostics))
      && (0 < |text| && end as int <= |text| ==> |ctx.diagnostics| == |old(ctx.diagnostics)| + 1)
  {
    var ctx := state.pluginCtx;
    var text := ctx.parsedSource.textInfo.text;
    if |text| == 0 {
      return;
    }
    if |text| < end as int {
      return;
    }
    var startLoc := ctx.parsedSource.textInfo.lineAndColumnIndex(start as nat);
    var endLoc := ctx.parsedSource.textInfo.lineAndColumnIndex(end as nat);
    var range := Range(
      Position(start as nat, startLoc.lineIndex, startLoc.columnIndex),
      Position(end as nat, endLoc.lineIndex, endLoc.columnIndex));
    var diagnostic := LintDiagnostic(range, ctx.filename, code, message, hint);
    ctx.diagnostics := ctx.diagnostics + [diagnostic];
  }

  /** The plugins' entry point for one request, as the add-diagnostic calls it makes. */
  method RunEntryPoint(state: OpState, calls: seq<AddDiagnosticCall>)
    requires state.pluginCtx != null
    modifies state.pluginCtx
    ensures state.pluginCtx.diagnostics ==
      old(state.pluginCtx.diagnostics) + Recorded(state.pluginCtx.filename, state.pluginCtx.parsedSource, calls)
  {
    var ctx := state.pluginCtx;
    for i := 0 to |calls|
      invariant ctx.diagnostics == old(ctx.diagnostics) + Recorded(ctx.filename, ctx.parsedSource, calls[..i])
    {
      var call := calls[i];
      OpAddDiagnostic(state, call.code, call.message, call.hint, call.start, call.end);
      assert calls[..i + 1][..i] == calls[..i];
    }
    assert calls[..|calls|] == calls;
  }

  /** One turn of the host loop: put a fresh context, run the entry point
      (which makes `calls`), take the context out again and answer with its
      diagnostics: exactly those the calls of this request recorded. */
  method HandleRequest(state: OpState, request: PluginLintRequest, calls: seq<AddDiagnosticCall>)
    returns (response: PluginLintResponse)
    modifies state
    ensures response == Respond(request, calls)
    ensures state.pluginCtx == null
  {
    var ctx := new PluginCtx(request.parsedSource, request.filename);
    state.Put(ctx);
    RunEntryPoint(state, calls);
    var taken := state.Take();
    response := PluginLintResponse(taken.diagnostics);
  }

  /** The host loop over the requests in arrival order. `calls[i]` are the
      add-diagnostic calls the scripts make while handling `requests[i]`;
      the shared runtime may choose them using anything earlier requests left
      behind. Each response holds exactly what its own request's calls
      recorded: nothing carries over from one request's context to the next. */
  method RunPluginHost(state: OpState, requests: seq<PluginLintRequest>, calls: seq<seq<AddDiagnosticCall>>)
    returns (responses: seq<PluginLintResponse>)
    requires |calls| == |requests|
    requires state.pluginCtx == null
    modifies state
    ensures |responses| == |requests|
    ensures forall i :: 0 <= i < |requests| ==> responses[i] == Respond(requests[i], calls[i])
    ensures state.pluginCtx == null
  {
    responses := [];
    for i := 0 to |requests|
      invariant |responses| == i
      invariant forall k :: 0 <= k < i ==> responses[k] == Respond(requests[k], calls[k])
      invariant state.pluginCtx == null
    {
      var response := HandleRequest(state, requests[i], calls[i]);
      responses := responses + [response];
    }
  }
}
