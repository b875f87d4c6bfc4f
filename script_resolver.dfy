/** Which configured script applies to an entity entering a state. */
module ScriptResolver {
  import opened NotifyTypes

  /** The per-state script of an instance (get_iscript). */
  function GetIScript(vrrp: VrrpInstance, state: int): (r: Option<string>)
    ensures !vrrp.notifyExec ==> r == None
    ensures vrrp.notifyExec && state == BACK ==> r == vrrp.scriptBackup
    ensures vrrp.notifyExec && state == MAST ==> r == vrrp.scriptMaster
    ensures vrrp.notifyExec && state == FAULT ==> r == vrrp.scriptFault
    ensures state != BACK && state != MAST && state != FAULT ==> r == None
    ensures r.Some? ==> r in {vrrp.scriptBackup, vrrp.scriptMaster, vrrp.scriptFault}
  {
    if !vrrp.notifyExec then None
    else if state == BACK then vrrp.scriptBackup
    else if state == MAST then vrrp.scriptMaster
    else if state == FAULT then vrrp.scriptFault
    else None
  }

  /** The generic script of an instance (get_igscript). */
  function GetIgScript(vrrp: VrrpInstance): (r: Option<string>)
    ensures r == vrrp.script
  {
    vrrp.script
  }

  /** The per-state script of a synchronisation group (get_gscript). */
  function GetGScript(vgroup: SyncGroup, state: int): (r: Option<string>)
    ensures !vgroup.notifyExec ==> r == None
    ensures vgroup.notifyExec && state == BACK ==> r == vgroup.scriptBackup
    ensures vgroup.notifyExec && state == MAST ==> r == vgroup.scriptMaster
    ensures vgroup.notifyExec && state == FAULT ==> r == vgroup.scriptFault
    ensures state != BACK && state != MAST && state != FAULT ==> r == None
    ensures r.Some? ==> r in {vgroup.scriptBackup, vgroup.scriptMaster, vgroup.scriptFault}
  {
    if !vgroup.notifyExec then None
    else if state == BACK then vgroup.scriptBackup
    else if state == MAST then vgroup.scriptMaster
    else if state == FAULT then vgroup.scriptFault
    else None
  }

  /** The generic script of a synchronisation group (get_ggscript). */
  function GetGgScript(vgroup: SyncGroup): (r: Option<string>)
    ensures r == vgroup.script
  {
    vgroup.script
  }

  /** The generic lookups ignore the `notify_exec` flag, and the per-state
      lookups do not depend on the generic script. */
  lemma GenericIgnoresFlag(vrrp: VrrpInstance, vgroup: SyncGroup, enabled: bool, state: int)
    ensures GetIgScript(vrrp.(notifyExec := enabled)) == vrrp.script
    ensures GetGgScript(vgroup.(notifyExec := enabled)) == vgroup.script
    ensures forall g :: GetIScript(vrrp.(script := g), state) == GetIScript(vrrp, state)
    ensures forall g :: GetGScript(vgroup.(script := g), state) == GetGScript(vgroup, state)
  {
  }

  /** The instance with the group's name and scripts. */
  function AsInstance(vgroup: SyncGroup): (vrrp: VrrpInstance)
  {
    VrrpInstance(vgroup.gname, vgroup.notifyExec, vgroup.scriptBackup,
                 vgroup.scriptMaster, vgroup.scriptFault, vgroup.script)
  }

  /** A group resolves its scripts exactly as an instance with the same fields. */
  lemma GroupResolvesAsInstance(vgroup: SyncGroup, state: int)
    ensures GetGScript(vgroup, state) == GetIScript(AsInstance(vgroup), state)
    ensures GetGgScript(vgroup) == GetIgScript(AsInstance(vgroup))
  {
  }
}
