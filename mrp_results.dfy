/** The outcome of a planning run: `MrpResult`, `MrpWarning` and the
    per-component `ComponentMrpResult`. */
module MrpResults {
  import opened Wrappers
  import opened MrpCore
  import opened Plans

  datatype WarningSeverity = Info | Warning | Error

  datatype MrpWarning = MrpWarning(componentId: ComponentId, message: string, severity: WarningSeverity)

  /** `MrpWarning::new` */
  function NewWarning(componentId: ComponentId, message: string, severity: WarningSeverity): (w: MrpWarning)
    ensures w.componentId == componentId && w.message == message && w.severity == severity
  {
    MrpWarning(componentId, message, severity)
  }

  /** `MrpWarning::info` */
  function InfoWarning(componentId: ComponentId, message: string): (w: MrpWarning)
    ensures w == NewWarning(componentId, message, Info) && w.severity.Info?
  {
    NewWarning(componentId, message, Info)
  }

  /** `MrpWarning::warning` */
  function WarningWarning(componentId: ComponentId, message: string): (w: MrpWarning)
    ensures w == NewWarning(componentId, message, Warning) && w.severity.Warning?
  {
    NewWarning(componentId, message, Warning)
  }

  /** `MrpWarning::error` */
  function ErrorWarning(componentId: ComponentId, message: string): (w: MrpWarning)
    ensures w == NewWarning(componentId, message, Error) && w.severity.Error?
  {
    NewWarning(componentId, message, Error)
  }

  /** `ComponentMrpResult`: the orders planned for one component. */
  datatype ComponentMrpResult = ComponentMrpResult(componentId: ComponentId, plannedOrders: seq<PlannedOrder>)

  class MrpResult {
    var plannedOrders: seq<PlannedOrder>
    var pegging: map<Uuid, seq<PeggingRecord>>
    var warnings: seq<MrpWarning>
    var calculationTimeMs: Option<nat>

    /** The struct literal the engine fills in at the end of a run. */
    constructor (plannedOrders: seq<PlannedOrder>, pegging: map<Uuid, seq<PeggingRecord>>,
                 warnings: seq<MrpWarning>, calculationTimeMs: Option<nat>)
      ensures this.plannedOrders == plannedOrders && this.pegging == pegging
      ensures this.warnings == warnings && this.calculationTimeMs == calculationTimeMs
    {
      this.plannedOrders := plannedOrders;
      this.pegging := pegging;
      this.warnings := warnings;
      this.calculationTimeMs := calculationTimeMs;
    }

    /** `MrpResult::empty` */
    constructor Empty()
      ensures plannedOrders == [] && pegging == map[] && warnings == [] && calculationTimeMs.None?
    {
      plannedOrders := [];
      pegging := map[];
      warnings := [];
      calculationTimeMs := None;
    }

    /** `add_warning`: one more warning at the end, nothing else changes. */
    method AddWarning(w: MrpWarning)
      modifies this`warnings
      ensures |warnings| == |old(warnings)| + 1
      ensures warnings[..|old(warnings)|] == old(warnings) && warnings[|old(warnings)|] == w
    {
      warnings := warnings + [w];
    }
  }
}
