/**
 * The trace and its physical trace, as far as a memoizable operation sees
 * them.  Their own implementations are not part of this model: each class
 * keeps only the state the operation reads or changes, and each method
 * states only the effect the operation relies on.
 */
module Tracing {
  import opened Wrappers
  import opened MemoSpec

  /** The template store of one trace. */
  class PhysicalTrace {
    var current: Option<TemplateId>
    var next: TemplateId
    var replaying: set<TemplateId>

    constructor ()
      ensures View() == Store(None, 0, {})
    {
      current, next, replaying := None, 0, {};
    }

    /** The store as a value. */
    function View(): Store
      reads this
    {
      Store(current, next, replaying)
    }

    ghost predicate Valid()
      reads this
    {
      StoreValid(View())
    }

    /** get_current_template: the template under construction or being replayed, if any. */
    function GetCurrentTemplate(): Option<TemplateId>
      reads this
    {
      current
    }

    /** is_replaying on template `t`. */
    predicate IsReplaying(t: TemplateId)
      reads this
    {
      t in replaying
    }

    /** start_new_template: a new template becomes the current one. */
    method StartNewTemplate() returns (t: TemplateId)
      modifies this
      ensures View() == Started(old(View())) && Some(t) == current
    {
      t := next;
      current, next := Some(next), next + 1;
    }

    /** The trace finished recording its current template, which now replays. */
    method CompleteRecording()
      requires current.Some?
      modifies this
      ensures View() == old(View()).(replaying := old(replaying) + {old(current).value})
    {
      replaying := replaying + {current.value};
    }
  }

  /** A trace: its physical-tracing mode and its template store. */
  class Trace {
    var mode: TraceMode
    const physical: PhysicalTrace

    constructor (physical: PhysicalTrace)
      ensures mode == LogicalOnly && this.physical == physical
    {
      mode := LogicalOnly;
      this.physical := physical;
    }

    predicate IsRecording()
      reads this
    {
      mode == PhysicalRecord
    }

    predicate IsReplaying()
      reads this
    {
      mode == PhysicalReplay
    }

    /** set_state_record. */
    method SetStateRecord()
      modifies this
      ensures mode == PhysicalRecord
    {
      mode := PhysicalRecord;
    }

    /** The trace begins replaying its recorded template. */
    method SetStateReplay()
      modifies this
      ensures mode == PhysicalReplay
    {
      mode := PhysicalReplay;
    }
  }
}
