/** Dispatch of the notify scripts for one state transition
    (notify_instance_exec, notify_group_exec). Requesting execution of a
    command (notify_exec) is modelled as appending it to a trace. */
module NotifyDispatch {
  import opened NotifyTypes
  import opened ScriptResolver
  import opened ScriptName
  import opened ScriptValidator
  import opened CommandLine

  /** The request of the per-state branch: the script string itself, when its
      leading token is readable. */
  function PerStateRequests(readable: string -> bool, script: Option<string>): (reqs: seq<string>)
    ensures |reqs| <= 1
    ensures reqs != [] <==> script.Some? && readable(LeadingToken(script.value))
    ensures reqs != [] ==> reqs[0] == script.value
  {
    if TokenizedOpens(readable, script) then [script.value] else []
  }

  /** The request of the generic branch: the composed command line, when the
      whole generic string is readable and the buffer could be allocated. */
  function GenericRequests(readable: string -> bool, gscript: Option<string>, typ: string,
                           name: string, state: int, allocOk: bool): (reqs: seq<string>)
    ensures |reqs| <= 1
    ensures reqs != [] <==> gscript.Some? && readable(gscript.value) && allocOk
    ensures reqs != [] ==> reqs[0] == Command(gscript.value, typ, name, StateLabel(state))
  {
    if gscript.Some? && ScriptOpenLiteral(readable, gscript.value) && allocOk
    then [Command(gscript.value, typ, name, StateLabel(state))]
    else []
  }

  /** Every request of one dispatch, in the order they are made. */
  function Requests(readable: string -> bool, script: Option<string>, gscript: Option<string>,
                    typ: string, name: string, state: int, allocOk: bool): (reqs: seq<string>)
    ensures |reqs| <= 2
    ensures |reqs| == |PerStateRequests(readable, script)| + |GenericRequests(readable, gscript, typ, name, state, allocOk)|
    ensures reqs[..|PerStateRequests(readable, script)|] == PerStateRequests(readable, script)
    ensures reqs[|PerStateRequests(readable, script)|..] == GenericRequests(readable, gscript, typ, name, state, allocOk)
  {
    PerStateRequests(readable, script) + GenericRequests(readable, gscript, typ, name, state, allocOk)
  }

  /** The value dispatch returns: a per-state launch, or a generic script that
      passed its check (whether or not its command could then be built). */
  predicate Launched(readable: string -> bool, script: Option<string>, gscript: Option<string>): (r: bool)
    ensures r <==> PerStateRequests(readable, script) != [] || (gscript.Some? && readable(gscript.value))
  {
    TokenizedOpens(readable, script) || (gscript.Some? && ScriptOpenLiteral(readable, gscript.value))
  }

  /** The body shared by both dispatchers: the per-state branch, then,
      independently, the generic branch. */
  method Dispatch(readable: string -> bool, script: Option<string>, gscript: Option<string>,
                  typ: string, name: string, state: int, allocOk: bool, trace: seq<string>)
    returns (ret: bool, trace': seq<string>)
    ensures ret == Launched(readable, script, gscript)
    ensures trace' == trace + Requests(readable, script, gscript, typ, name, state, allocOk)
  {
    ret := false;
    trace' := trace;

    // Launch the notify_* script.
    if script.Some? {
      var isOpen := ScriptOpen(readable, script);
      if isOpen {
        trace' := trace' + [script.value];
        ret := true;
      }
    }

    // Launch the generic notify script; its own result does not affect ret.
    if gscript.Some? && ScriptOpenLiteral(readable, gscript.value) {
      var _, t := NotifyScriptExec(gscript.value, typ, state, name, allocOk, trace');
      trace' := t;
      ret := true;
    }
  }

  /** notify_instance_exec. */
  method NotifyInstanceExec(vrrp: VrrpInstance, state: int, readable: string -> bool,
                            allocOk: bool, trace: seq<string>)
    returns (ret: bool, trace': seq<string>)
    ensures ret == Launched(readable, GetIScript(vrrp, state), GetIgScript(vrrp))
    ensures trace' == trace + Requests(readable, GetIScript(vrrp, state), GetIgScript(vrrp),
                                       "INSTANCE", vrrp.iname, state, allocOk)
  {
    var script := GetIScript(vrrp, state);
    var gscript := GetIgScript(vrrp);
    ret, trace' := Dispatch(readable, script, gscript, "INSTANCE", vrrp.iname, state, allocOk, trace);
  }

  /** notify_group_exec. */
  method NotifyGroupExec(vgroup: SyncGroup, state: int, readable: string -> bool,
                         allocOk: bool, trace: seq<string>)
    returns (ret: bool, trace': seq<string>)
    ensures ret == Launched(readable, GetGScript(vgroup, state), GetGgScript(vgroup))
    ensures trace' == trace + Requests(readable, GetGScript(vgroup, state), GetGgScript(vgroup),
                                       "GROUP", vgroup.gname, state, allocOk)
  {
    var script := GetGScript(vgroup, state);
    var gscript := GetGgScript(vgroup);
    ret, trace' := Dispatch(readable, script, gscript, "GROUP", vgroup.gname, state, allocOk, trace);
  }

  // ---------------------------------------------------------------------------
  // Properties of one dispatch

  /** At most two requests, the raw per-state script before the composed
      generic command. */
  lemma RequestsOrder(readable: string -> bool, script: Option<string>, gscript: Option<string>,
                      typ: string, name: string, state: int, allocOk: bool)
    ensures var reqs := Requests(readable, script, gscript, typ, name, state, allocOk);
      |reqs| <= 2 &&
      (|reqs| == 2 ==> reqs[0] == script.value && reqs[1] == Command(gscript.value, typ, name, StateLabel(state)))
  {
  }

  /** Nothing is requested that did not pass its own check: a per-state
      script only after its leading token was found readable, a generic
      command only after the whole generic string was. */
  lemma EveryRequestChecked(readable: string -> bool, script: Option<string>, gscript: Option<string>,
                            typ: string, name: string, state: int, allocOk: bool)
    ensures forall cmd :: cmd in Requests(readable, script, gscript, typ, name, state, allocOk) ==>
      (script == Some(cmd) && readable(LeadingToken(cmd))) ||
      (gscript.Some? && readable(gscript.value) && cmd == Command(gscript.value, typ, name, StateLabel(state)))
  {
  }

  /** A per-state script that is empty or starts with whitespace or NUL is
      never launched when the empty path is not readable. */
  lemma EmptyTokenNeverLaunched(readable: string -> bool, script: string)
    requires !readable([])
    requires script == [] || IsTokenEnd(script[0])
    ensures PerStateRequests(readable, Some(script)) == []
  {
    TokenizedRejectsEmptyToken(readable, script);
  }

  /** When both branches pass their checks and the buffer is allocated,
      exactly two requests are made. */
  lemma BothBranchesRequest(readable: string -> bool, script: Option<string>, gscript: Option<string>,
                            typ: string, name: string, state: int, allocOk: bool)
    requires TokenizedOpens(readable, script)
    requires gscript.Some? && ScriptOpenLiteral(readable, gscript.value) && allocOk
    ensures Requests(readable, script, gscript, typ, name, state, allocOk)
         == [script.value, Command(gscript.value, typ, name, StateLabel(state))]
  {
  }

  /** The result is true exactly when something was requested, or when the
      generic script passed its check but its command could not be built. */
  lemma LaunchedVersusRequested(readable: string -> bool, script: Option<string>, gscript: Option<string>,
                                typ: string, name: string, state: int, allocOk: bool)
    ensures Launched(readable, script, gscript) <==>
      |Requests(readable, script, gscript, typ, name, state, allocOk)| > 0 ||
      (gscript.Some? && ScriptOpenLiteral(readable, gscript.value))
    ensures allocOk ==>
      (Launched(readable, script, gscript) <==> |Requests(readable, script, gscript, typ, name, state, allocOk)| > 0)
  {
  }

  /** The result can be true with nothing requested: a readable generic
      script whose command buffer could not be allocated. */
  lemma LaunchedWithoutRequest(gscript: string, typ: string, name: string, state: int)
    ensures Launched(OnlyReadable(gscript), None, Some(gscript))
    ensures Requests(OnlyReadable(gscript), None, Some(gscript), typ, name, state, false) == []
  {
  }

  /** With per-state notification disabled only the generic branch can
      request anything, whatever the state. */
  lemma DisabledInstanceRequestsGenericOnly(vrrp: VrrpInstance, state: int, readable: string -> bool, allocOk: bool)
    requires !vrrp.notifyExec
    ensures Requests(readable, GetIScript(vrrp, state), GetIgScript(vrrp), "INSTANCE", vrrp.iname, state, allocOk)
         == GenericRequests(readable, vrrp.script, "INSTANCE", vrrp.iname, state, allocOk)
  {
  }

  /** The same for a synchronisation group. */
  lemma DisabledGroupRequestsGenericOnly(vgroup: SyncGroup, state: int, readable: string -> bool, allocOk: bool)
    requires !vgroup.notifyExec
    ensures Requests(readable, GetGScript(vgroup, state), GetGgScript(vgroup), "GROUP", vgroup.gname, state, allocOk)
         == GenericRequests(readable, vgroup.script, "GROUP", vgroup.gname, state, allocOk)
  {
  }

  /** A group dispatch requests what an instance dispatch with the same name
      and scripts requests, except that the generic command says GROUP where
      the instance's says INSTANCE. */
  lemma GroupMirrorsInstance(vgroup: SyncGroup, state: int, readable: string -> bool, allocOk: bool)
    ensures var vrrp := AsInstance(vgroup);
      Requests(readable, GetGScript(vgroup, state), GetGgScript(vgroup), "GROUP", vgroup.gname, state, allocOk)
      == Requests(readable, GetIScript(vrrp, state), GetIgScript(vrrp), "GROUP", vrrp.iname, state, allocOk)
    ensures var vrrp := AsInstance(vgroup);
      PerStateRequests(readable, GetGScript(vgroup, state)) == PerStateRequests(readable, GetIScript(vrrp, state)) &&
      Launched(readable, GetGScript(vgroup, state), GetGgScript(vgroup))
      == Launched(readable, GetIScript(vrrp, state), GetIgScript(vrrp))
  {
    GroupResolvesAsInstance(vgroup, state);
  }

  /** The generic command carries, as its first quoted field, exactly the
      string that was checked, followed by the type tag, the entity name and
      the state label, provided no field holds its own delimiter. */
  lemma GenericCommandCarriesCheckedScript(readable: string -> bool, gscript: Option<string>, typ: string,
                                           name: string, state: int, allocOk: bool)
    requires gscript.Some? ==> '"' !in gscript.value
    requires ' ' !in typ && '"' !in name
    ensures forall cmd :: cmd in GenericRequests(readable, gscript, typ, name, state, allocOk) ==>
      ParseCommand(cmd) == Some(Fields(gscript.value, typ, name, StateLabel(state))) &&
      readable(gscript.value)
  {
    if gscript.Some? {
      ParseCommandRoundTrip(gscript.value, typ, name, StateLabel(state));
    }
  }

  /** A string with embedded arguments is launched by the per-state branch
      but skipped by the generic branch when only its leading token is a
      readable file. */
  lemma EmbeddedArgumentsSplitBranches(script: string, i: nat, typ: string, name: string, state: int, allocOk: bool)
    requires i < |script| && IsSpace(script[i])
    ensures var readable := OnlyReadable(LeadingToken(script));
      PerStateRequests(readable, Some(script)) == [script] &&
      GenericRequests(readable, Some(script), typ, name, state, allocOk) == []
  {
    ChecksDifferOnArguments(script, i);
  }
}
