# keepalived VRRP notify scripts — a Dafny model

This project models keepalived's VRRP state-transition notification layer
(`keepalived/vrrp/vrrp_notify.c`). When a VRRP instance or a synchronisation
group enters MASTER, BACKUP or FAULT, the layer picks the scripts the
operator configured and checks that each one can be opened. It builds the
command line for the generic notify script and asks the process spawner
(`notify_exec`) to run each command.

Modules, one per component of the C file:

- `NotifyTypes` (`notify_types.dfy`): the fields of `vrrp_rt` and `vrrp_sgroup`
  that the layer reads, the state numbers, and `Option` for a nullable `char *`.
- `ScriptResolver` (`script_resolver.dfy`): `get_iscript`, `get_igscript`,
  `get_gscript`, `get_ggscript`.
- `ScriptName` (`script_name.dfy`): `notify_script_name`, with the C-locale
  `isspace` set (space, `\t`, `\n`, `\v`, `\f`, `\r`). The method keeps the
  source's cursor loop and is proved against the function `LeadingToken`.
- `ScriptValidator` (`script_validator.dfy`): `script_open_litteral` and
  `script_open`, kept as two separate checks.
- `CommandLine` (`command_line.dfy`): the state label, the buffer size, the
  `snprintf` format, and `notify_script_exec`. It also has a parser for the
  command line, used to show the format can be read back.
- `NotifyDispatch` (`notify_dispatch.dfy`): `notify_instance_exec` and
  `notify_group_exec`. Both delegate to `Dispatch`, the algorithm they share.
  They are proved against the specification functions `Requests` and `Launched`.

Abstractions:

- Opening a file for reading (`fopen`/`fclose`) is the predicate parameter
  `readable: string -> bool`.
- `notify_exec` appends its command to a trace `seq<string>`. Each method takes
  the trace in and returns the extended trace.
- Failure of the `MALLOC` in `notify_script_exec` is the parameter `allocOk`.
- C's `int` results 0/1 are `bool`.
- C strings are `seq<char>`, and the end of the sequence stands for the
  terminating NUL. The strings the layer receives are C strings and so hold
  no `'\0'`; `Command`, `BufferSize` and `ScriptOpenLiteral` count and use
  every character of their arguments, which for such strings is what
  `strlen`, `%s` and `fopen` see. Only `NotifyScriptName` is also stated for
  sequences with an embedded `'\0'`, where it stops as the C loop does.
- `fopen("", "r")` fails on Linux; the lemmas about an empty leading token
  take this as the hypothesis `!readable([])`.
- The state numbers `BACK = 1`, `MAST = 2` and `FAULT = 3` follow keepalived's
  `vrrp.h`, which is not part of this model. Only their distinctness matters.

Two points where a natural reading of the layer differs from the code; the
model follows the code:

- The return value is not "at least one execution was requested". The code
  sets `ret = 1` once the generic script passes its literal check, even when
  `notify_script_exec` then fails to allocate and requests nothing
  (vrrp_notify.c:176-179). `Launched` follows the code.
  `LaunchedVersusRequested` shows that the two readings agree when allocation
  succeeds. `LaunchedWithoutRequest` shows a case where they differ.
- The sum of the field lengths plus 8 (vrrp_notify.c:150) is the allocated
  size, which includes the terminating NUL. It is not the length of the
  command string, which is one character shorter.

## Model

| member | source | states |
|---|---|---|
| `ScriptResolver.GetIScript` | keepalived/vrrp/vrrp_notify.c:33-45 | notify_exec off gives no script for any state; BACK, MAST, FAULT give script_backup, script_master, script_fault; any other state gives none; a result is always one of the three per-state slots |
| `ScriptResolver.GetGScript` | keepalived/vrrp/vrrp_notify.c:53-65 | the same table for a synchronisation group |
| `ScriptResolver.GenericIgnoresFlag` | keepalived/vrrp/vrrp_notify.c:47-71 | the generic lookups return `script` whatever notify_exec is; the per-state lookups ignore the generic script |
| `ScriptResolver.GroupResolvesAsInstance` | keepalived/vrrp/vrrp_notify.c:33-71 | a group resolves both its scripts exactly as an instance with the same fields |
| `ScriptResolver.GetIgScript` | keepalived/vrrp/vrrp_notify.c:47-51 | the instance's generic script is its `script` field; notify_exec plays no part |
| `ScriptResolver.GetGgScript` | keepalived/vrrp/vrrp_notify.c:67-71 | the group's generic script is its `script` field; notify_exec plays no part |
| `ScriptValidator.ScriptOpenLiteral` | keepalived/vrrp/vrrp_notify.c:92-103 | succeeds iff the entire unmodified string is readable; on a string without whitespace or NUL that is the same as its leading token being readable |
| `ScriptValidator.TokenizedRejectsEmptyToken` | keepalived/vrrp/vrrp_notify.c:105-113 | a string that is empty or starts with whitespace or NUL has the empty token and fails the tokenized check when "" cannot be opened |
| `CommandLine.BufferSize` | keepalived/vrrp/vrrp_notify.c:150 | the allocated size is the length of the formatted command plus one |
| `NotifyDispatch.PerStateRequests` | keepalived/vrrp/vrrp_notify.c:169-173 | at most one request; there is one iff the per-state script is present and its leading token is readable, and it is the raw script string |
| `NotifyDispatch.GenericRequests` | keepalived/vrrp/vrrp_notify.c:175-179 | at most one request; there is one iff the generic script is present, readable as a whole and its buffer is allocated, and it is the formatted command with the state's label |
| `NotifyDispatch.Requests` | keepalived/vrrp/vrrp_notify.c:169-179 | at most two requests: the per-state branch's requests first, then the generic branch's |
| `NotifyDispatch.Launched` | keepalived/vrrp/vrrp_notify.c:167-181 | true iff the per-state branch made its request or the generic script passed its literal check |
| `NotifyDispatch.EmptyTokenNeverLaunched` | keepalived/vrrp/vrrp_notify.c:169-173 | a per-state script that is empty or starts with whitespace or NUL is never launched when "" cannot be opened |
| `ScriptName.LeadingToken` | keepalived/vrrp/vrrp_notify.c:82-87 | the token is a prefix of the command line, holds no whitespace or NUL, and ends at the end of the input or at a whitespace/NUL character |
| `ScriptName.LeadingTokenCharacterised` | keepalived/vrrp/vrrp_notify.c:82-87 | a string is the leading token if and only if it is a separator-free prefix that stops at a separator or at the end |
| `ScriptName.LeadingTokenLongest` | keepalived/vrrp/vrrp_notify.c:82-84 | no separator-free prefix is longer than the leading token |
| `ScriptName.LeadingTokenWhole` | keepalived/vrrp/vrrp_notify.c:82-87 | the token equals the whole input if and only if the input has no whitespace or NUL |
| `ScriptName.LeadingTokenIdempotent` | keepalived/vrrp/vrrp_notify.c:73-90 | extracting the token of the token changes nothing |
| `ScriptName.LeadingTokenDropsArguments` | keepalived/vrrp/vrrp_notify.c:82-84 | with whitespace at position i the token differs from the input and is at most i long |
| `ScriptName.NotifyScriptName` | keepalived/vrrp/vrrp_notify.c:73-90 | NULL in gives NULL out; otherwise the cursor loop copies exactly the leading token |
| `ScriptValidator.ScriptOpen` | keepalived/vrrp/vrrp_notify.c:105-113 | succeeds iff the string is present and its leading token, opened literally, is readable |
| `ScriptValidator.ChecksAgreeOnBarePath` | keepalived/vrrp/vrrp_notify.c:92-113 | on a string with no whitespace or NUL the tokenized and literal checks agree for every filesystem |
| `ScriptValidator.ChecksDifferOnArguments` | keepalived/vrrp/vrrp_notify.c:92-113 | on a string with embedded whitespace, a filesystem holding only its leading token passes the tokenized check and fails the literal check |
| `CommandLine.StateLabel` | keepalived/vrrp/vrrp_notify.c:118-148 | total: MAST maps to MASTER, BACK to BACKUP, FAULT to FAULT, each iff; every other state maps to {UNKNOWN}; no label holds a space or a quote |
| `CommandLine.Command` | keepalived/vrrp/vrrp_notify.c:126-156 | the formatted command has the length of its four fields plus 7 |
| `CommandLine.Snprintf` | keepalived/vrrp/vrrp_notify.c:156 | snprintf leaves a prefix of the formatted text, of length at most size - 1 |
| `CommandLine.BufferSizeExact` | keepalived/vrrp/vrrp_notify.c:122-156 | the allocated size is the command length plus one: snprintf into it never truncates, and one byte less would truncate |
| `CommandLine.CommandExample` | keepalived/vrrp/vrrp_notify.c:126-156 | the MASTER command for /tmp/s.sh and VI_1 is `"/tmp/s.sh" INSTANCE "VI_1" MASTER`, one byte shorter than its buffer |
| `CommandLine.ParseCommandRoundTrip` | keepalived/vrrp/vrrp_notify.c:126-156 | parsing the command gives back script, type, name and state when the quoted fields hold no quote and the type no space |
| `CommandLine.ParseCommandSound` | keepalived/vrrp/vrrp_notify.c:126-156 | every string that parses is the formatting of its parsed fields, which hold no delimiter |
| `CommandLine.NotifyScriptExec` | keepalived/vrrp/vrrp_notify.c:115-160 | on allocation failure returns false and requests nothing; otherwise requests exactly the formatted command with the state's label and returns true |
| `NotifyDispatch.Dispatch` | keepalived/vrrp/vrrp_notify.c:165-181 | the per-state branch then the generic branch; the trace grows by exactly `Requests` and the result is `Launched` |
| `NotifyDispatch.NotifyInstanceExec` | keepalived/vrrp/vrrp_notify.c:162-182 | dispatch with the instance's resolved scripts, type INSTANCE and name iname |
| `NotifyDispatch.NotifyGroupExec` | keepalived/vrrp/vrrp_notify.c:184-204 | dispatch with the group's resolved scripts, type GROUP and name gname |
| `NotifyDispatch.RequestsOrder` | keepalived/vrrp/vrrp_notify.c:169-179 | at most two requests; if two, the raw per-state script comes first and the composed generic command second |
| `NotifyDispatch.EveryRequestChecked` | keepalived/vrrp/vrrp_notify.c:169-179 | every request is either the per-state script whose leading token is readable or the command of a generic script that is readable as a whole |
| `NotifyDispatch.BothBranchesRequest` | keepalived/vrrp/vrrp_notify.c:169-179 | when both checks pass and allocation succeeds the requests are exactly [per-state script, generic command] |
| `NotifyDispatch.LaunchedVersusRequested` | keepalived/vrrp/vrrp_notify.c:167-181 | the result is true iff something was requested or the generic script passed its check; with allocation succeeding, iff something was requested |
| `NotifyDispatch.LaunchedWithoutRequest` | keepalived/vrrp/vrrp_notify.c:175-179 | a readable generic script with failed allocation makes the result true with no request |
| `NotifyDispatch.DisabledInstanceRequestsGenericOnly` | keepalived/vrrp/vrrp_notify.c:165-179 | with notify_exec off an instance requests only what its generic branch requests, for every state |
| `NotifyDispatch.DisabledGroupRequestsGenericOnly` | keepalived/vrrp/vrrp_notify.c:187-201 | the same for a group |
| `NotifyDispatch.GroupMirrorsInstance` | keepalived/vrrp/vrrp_notify.c:162-204 | a group requests and returns what an instance with the same name and scripts would, with the type tag GROUP |
| `NotifyDispatch.GenericCommandCarriesCheckedScript` | keepalived/vrrp/vrrp_notify.c:175-178 | the generic command parses back to the checked script, the type, the name and the state label |
| `NotifyDispatch.EmbeddedArgumentsSplitBranches` | keepalived/vrrp/vrrp_notify.c:169-179 | a string with embedded arguments, on a filesystem holding only its leading token, is launched by the per-state branch and skipped by the generic branch |

## Left out

- `fopen`/`fclose` and the `syslog` message of `script_open_litteral` (vrrp_notify.c:95-101) are filesystem I/O and logging. Readability is the parameter `readable`.
- `notify_exec` lives in `notify.h`/`notify.c`, which are not part of this model. It spawns a process and does not wait for it. Here it is only the append to the trace.
- `MALLOC`/`FREE` and NUL terminators are not modelled. Allocation failure in `notify_script_exec` is the input `allocOk`.
- `NotifyScriptName`: the unchecked `MALLOC` at vrrp_notify.c:85 depends on `memory.h`, which is not part of this model, so it is taken to succeed. Its `int str_len` (vrrp_notify.c:78,84) is unbounded here, so a token longer than `INT_MAX` is not modelled.
- `isspace` is fixed to the C locale. Locale-dependent classification and characters above 127 are not modelled.
- The other fields of `vrrp_rt` and `vrrp_sgroup` are not modelled. Their layouts are in headers that are not part of this model.
- `CommandLine.BufferSizeExact`: the C code keeps `size` (vrrp_notify.c:120,150) and `str_len` (vrrp_notify.c:78,84) in an `int`. The model's integers are unbounded. So in C, "never truncates" holds only while `strlen(script) + strlen(type) + strlen(state) + strlen(name) + 8` is at most `INT_MAX`, and the token copy only while its length fits in an `int`. Past that bound the conversion of `strlen`'s `size_t` sum to `int` is not modelled.
