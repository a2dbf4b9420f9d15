/** Small value types shared by every module. A `string` stands for a Go string: one `char` per byte. */
module Common {

  datatype Option<+T> = None | Some(value: T)

  /** A Kubernetes namespace and name. It identifies an InternalRequest (remote cluster) or a PipelineRun (local one). */
  datatype NamespacedName = NamespacedName(namespace: string, name: string)

  /** The reasons the controller writes into conditions and metric labels. */
  datatype Reason = RunningReason | SucceededReason | FailedReason | RejectedReason | DeletedReason

  datatype ConditionStatus = ConditionTrue | ConditionFalse | ConditionUnknown

  datatype Param = Param(name: string, value: string)

  function Bit(b: bool): nat {
    if b then 1 else 0
  }
}
