/** The part of a frame the pipelines look at: its identity and what kind it is. */
module Frames {

  datatype Kind = Start | End | Cancel | Sync | Other

  datatype Frame = Frame(id: nat, kind: Kind)

  datatype Direction = Downstream | Upstream

  /** The frames whose propagation a parallel pipeline synchronizes. */
  predicate IsLifecycle(f: Frame) {
    f.kind.Start? || f.kind.End? || f.kind.Cancel?
  }
}
