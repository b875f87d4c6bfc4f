/** Entities and values shared by the VRRP notification layer. */
module NotifyTypes {

  /** A C `char *` that may be NULL. */
  datatype Option<+T> = None | Some(value: T)

  /** VRRP state numbers as the protocol engine passes them (an `int` in C).
      Only these three are named by the notification layer; every other
      integer is an unrecognised state. */
  const BACK: int := 1
  const MAST: int := 2
  const FAULT: int := 3

  /** The fields of a VRRP instance (`vrrp_rt`) that the notification layer reads. */
  datatype VrrpInstance = VrrpInstance(
    iname: string,                  // instance name
    notifyExec: bool,               // per-state scripts enabled
    scriptBackup: Option<string>,   // run on entering BACKUP
    scriptMaster: Option<string>,   // run on entering MASTER
    scriptFault: Option<string>,    // run on entering FAULT
    script: Option<string>          // generic script, run on every transition
  )

  /** The fields of a VRRP synchronisation group (`vrrp_sgroup`) that the
      notification layer reads. */
  datatype SyncGroup = SyncGroup(
    gname: string,
    notifyExec: bool,
    scriptBackup: Option<string>,
    scriptMaster: Option<string>,
    scriptFault: Option<string>,
    script: Option<string>
  )
}
