/**
 * MemoizableOp<OP>: an operation that may be memoized by physical tracing.
 *
 * The class keeps the two fields the source updates, memo_state and tpl,
 * and the fields of the wrapped operation it reads: its trace, its
 * generation and its trace-local id.  The calls the source makes that
 * change the trace or the template store, or run an analysis, are appended
 * to a ghost log, in order; read-only queries are not logged.  Every
 * method is proved against the functions of MemoSpec.
 */
module Memoizable {
  import opened Wrappers
  import opened MemoSpec
  import opened Tracing

  class MemoOp {
    var memoState: MemoState
    var tpl: Option<TemplateId>
    /** OP::trace; null for an operation outside any trace. */
    const trace: Trace?
    /** OP::gen. */
    const gen: nat
    /** OP::trace_local_id. */
    const traceLocalId: Uint32
    /** The state-changing and analysis calls made so far, in order. */
    ghost var log: seq<Hook>

    constructor (trace: Trace?, gen: nat, traceLocalId: Uint32)
      ensures this.trace == trace && this.gen == gen && this.traceLocalId == traceLocalId
      ensures Memo() == Fields(NoMemo, None) && log == []
    {
      this.trace := trace;
      this.gen := gen;
      this.traceLocalId := traceLocalId;
      memoState, tpl := NoMemo, None;
      log := [];
    }

    /** The memoization fields as a value. */
    function Memo(): Fields
      reads this
    {
      Fields(memoState, tpl)
    }

    /** The trace and its physical trace, when there is a trace. */
    ghost function Footprint(): set<object>
    {
      if trace == null then {} else {trace, trace.physical}
    }

    /** The template store of the trace; an untraced operation sees an empty one. */
    ghost function StoreView(): Store
      reads Footprint()
    {
      if trace == null then Store(None, 0, {}) else trace.physical.View()
    }

    /** initialize_memoizable: no memoization requested, no template. */
    method InitializeMemoizable()
      modifies this`memoState, this`tpl
      ensures Memo() == Fields(NoMemo, None)
      ensures Consistent(Memo())
    {
      tpl := None;
      memoState := NoMemo;
    }

    /**
     * execute_dependence_analysis: decide between recording and replaying,
     * then run the base analysis or the replay analysis.
     */
    method ExecuteDependenceAnalysis()
      requires memoState == NoMemo || memoState == MemoReq
      requires memoState == MemoReq ==> trace != null
      requires memoState == MemoReq ==> trace.physical.Valid() && ModeAgrees(trace.mode, trace.physical.View())
      modifies this`memoState, this`tpl, this`log, Footprint()
      ensures var r := Analyse(old(Memo()), gen, old(StoreView()));
        Memo() == r.fields && StoreView() == r.store && log == old(log) + r.hooks
      ensures trace != null ==>
        trace.mode == if old(memoState) == MemoReq && old(StoreView()).current.None? then PhysicalRecord else old(trace.mode)
      ensures Consistent(old(Memo())) ==> Consistent(Memo())
    {
      if memoState == MemoReq {
        var physical := trace.physical;
        tpl := physical.GetCurrentTemplate();
        if tpl == None {
          trace.SetStateRecord();
          log := log + [SetStateRecord];
          var t := physical.StartNewTemplate();
          log := log + [StartNewTemplate(t)];
          tpl := Some(t);
        }
        if physical.IsReplaying(tpl.value) {
          assert trace.IsReplaying();
          memoState := Replay;
          log := log + [RegisterPhysicalOnly(gen)];
          log := log + [ResolveSpeculation];
          log := log + [ReplayAnalysis];
          return;
        } else {
          assert trace.IsRecording();
          memoState := Record;
        }
      }
      log := log + [BaseAnalysis];
    }

    /** get_trace_local_id: the operation's position in its trace, with no point in an index space. */
    function GetTraceLocalId(): (r: (Uint32, DomainPoint))
      ensures r.0 == traceLocalId && r.1.Dim() == 0
    {
      (traceLocalId, NoSubIndex)
    }

    /**
     * invoke_memoize_operation: ask the mapper whether to memoize, telling
     * it whether the operation is traced; reject a request to memoize an
     * untraced operation, otherwise hand the answer to set_memoize.
     */
    method InvokeMemoizeOperation(mapper: Mapper, k: KillSwitches) returns (outcome: Outcome<Error>)
      requires trace != null || !Answer(mapper, trace != null) ==> memoState == NoMemo
      modifies this`memoState
      ensures var r := Invoke(old(memoState), trace != null, mapper, k);
        && (outcome.Fail? <==> r.Failure?)
        && (outcome.Fail? ==> outcome.error == r.error && memoState == old(memoState))
        && (outcome.Pass? ==> memoState == r.value)
    {
      var input := MemoizeInput(trace != null);
      var output := MemoizeOutput(false);
      output := mapper(input, output);
      if trace == null && output.memoize {
        return Fail(InvalidPhysicalTracing);
      }
      SetMemoize(output.memoize, k);
      outcome := Pass;
    }

    /** set_memoize: request memoization unless tracing or physical tracing is switched off. */
    method SetMemoize(memoize: bool, k: KillSwitches)
      requires memoState == NoMemo
      modifies this`memoState
      ensures memoState == SetMemoizeState(memoize, k)
      ensures memoState == MemoReq <==> memoize && !k.noTracing && !k.noPhysicalTracing
    {
      if memoize && !k.noTracing && !k.noPhysicalTracing {
        memoState := MemoReq;
      }
    }
  }

  /**
   * A traced operation that a mapper answering "memoize exactly the traced
   * operations" has asked to memoize, with both switches off.
   */
  method NewRequestedOp(trace: Trace, gen: nat, id: Uint32) returns (op: MemoOp)
    ensures fresh(op) && op.trace == trace && op.gen == gen
    ensures op.Memo() == Fields(MemoReq, None) && op.log == []
  {
    op := new MemoOp(trace, gen, id);
    op.InitializeMemoizable();
    var memoizeTraced: Mapper := (input: MemoizeInput, output: MemoizeOutput) => MemoizeOutput(input.traced);
    var outcome := op.InvokeMemoizeOperation(memoizeTraced, KillSwitches(false, false));
    assert outcome == Pass;
  }

  /** The first requested operation of a fresh trace starts a template and records it. */
  method RecordFirst(trace: Trace) returns (a: MemoOp)
    requires trace.physical.View() == Store(None, 0, {})
    modifies trace, trace.physical
    ensures fresh(a) && a.trace == trace
    ensures a.Memo() == Fields(Record, Some(0)) && a.log == [SetStateRecord, StartNewTemplate(0), BaseAnalysis]
    ensures trace.physical.View() == Store(Some(0), 1, {}) && trace.mode == PhysicalRecord
  {
    a := NewRequestedOp(trace, 1, 0);
    assert a.StoreView() == Store(None, 0, {});
    a.ExecuteDependenceAnalysis();
    AnalyseHookOrder(Fields(MemoReq, None), 1, Store(None, 0, {}));
  }

  /**
   * Two operations of one trace: the first records a new template, and
   * once that template replays the second replays it.
   */
  method RecordThenReplay()
    returns (first: MemoState, second: MemoState, firstTpl: Option<TemplateId>, secondTpl: Option<TemplateId>,
             ghost firstLog: seq<Hook>, ghost secondLog: seq<Hook>)
    ensures first == Record && second == Replay
    ensures firstTpl == secondTpl == Some(0)
    ensures firstLog == [SetStateRecord, StartNewTemplate(0), BaseAnalysis]
    ensures secondLog == [RegisterPhysicalOnly(2), ResolveSpeculation, ReplayAnalysis]
  {
    var physical := new PhysicalTrace();
    var trace := new Trace(physical);
    var a := RecordFirst(trace);

    physical.CompleteRecording();
    trace.SetStateReplay();

    var b := NewRequestedOp(trace, 2, 1);
    assert b.StoreView() == Store(Some(0), 1, {0});
    b.ExecuteDependenceAnalysis();
    AnalyseHookOrder(Fields(MemoReq, None), 2, Store(Some(0), 1, {0}));
    assert b.log == [RegisterPhysicalOnly(2), ResolveSpeculation, ReplayAnalysis];

    first, second := a.memoState, b.memoState;
    firstTpl, secondTpl := a.tpl, b.tpl;
    firstLog, secondLog := a.log, b.log;
  }
}
