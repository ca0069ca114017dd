/** The tag-dispatching factory `create_robot_arm`. */
module ArmFactory {
  import opened Wrappers
  import opened PySemantics
  import ArmInterface
  import VirtualArm

  /** `create_robot_arm(arm_type)`: dispatch on the lower-cased tag. The
      'ur' and 'kuka' branches import driver modules (robot_arm_ur,
      robot_arm_kuka) that are not part of the repository, so their
      ImportError handlers answer None, as does every unrecognised tag. */
  function CreateRobotArm(armType: string): (r: Option<VirtualArm.Arm>)
    ensures r.Some? <==> Lower(armType) == "virtual"
    ensures r.Some? ==> r.value == VirtualArm.NewArm()
    ensures r.Some? ==> !r.value.connected && r.value.status == ArmInterface.Disconnected
  {
    if Lower(armType) == "virtual" then Some(VirtualArm.NewArm()) else None
  }

  /** The dispatch ignores letter case. */
  lemma CreateRobotArmIgnoresCase(s: string, t: string)
    requires Lower(s) == Lower(t)
    ensures CreateRobotArm(s) == CreateRobotArm(t)
  {
  }

  lemma CreateRobotArmExamples()
    ensures CreateRobotArm("Virtual").Some? && CreateRobotArm("VIRTUAL").Some?
    ensures CreateRobotArm("ur").None? && CreateRobotArm("kuka").None? && CreateRobotArm("abb").None?
  {
  }
}
