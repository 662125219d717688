/** Experiment arms: what a spec document declares and the runner executes. */
module Arms {
  import opened Wrappers

  datatype ArmKind = Incumbent | RetrySelfConsistency | OneShotControl | Strategy | Ablation | FixedEditor

  datatype Arm = Arm(id: string, kind: ArmKind, maxAttempts: int, componentId: Option<string>, editorRef: Option<string>)

  predicate Named(name: Option<string>) {
    name.Some? && name.value != ""
  }

  /** What construction of an arm demands; anything else is refused. */
  predicate ValidArm(arm: Arm) {
    && arm.id != ""
    && (if arm.kind == Ablation then Named(arm.componentId) else arm.componentId.None?)
    && (if arm.kind == FixedEditor then Named(arm.editorRef) else arm.editorRef.None?)
    && arm.maxAttempts >= 1
    && (arm.kind != RetrySelfConsistency ==> arm.maxAttempts == 1)
  }

  /** Kind by kind: an ablation names a component and a fixed editor its editor,
      no other arm names either, and only the retry arm may try more than once. */
  lemma ValidArmIff(arm: Arm)
    ensures ValidArm(arm) <==>
              && arm.id != ""
              && match arm.kind
                 case Ablation => arm.componentId.Some? && arm.componentId != Some("") && arm.editorRef.None? && arm.maxAttempts == 1
                 case FixedEditor => arm.editorRef.Some? && arm.editorRef != Some("") && arm.componentId.None? && arm.maxAttempts == 1
                 case RetrySelfConsistency => arm.componentId.None? && arm.editorRef.None? && arm.maxAttempts > 0
                 case _ => arm.componentId.None? && arm.editorRef.None? && arm.maxAttempts == 1
  {
  }
}
