/** Database records that several actors pass on (crates/hamgrd/src/db_structs.rs). */
module DbStructs {
  datatype PmonState = Up | Down | Unknown

  datatype DpuState = DpuState(
    midplane: PmonState, midplaneTime: int, control: PmonState, controlTime: int, data: PmonState, dataTime: int)

  datatype BfdState = BfdState(v4: seq<string>, v4Time: int, v6: seq<string>, v6Time: int)
}
