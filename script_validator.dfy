/** The two readability checks applied before a script is launched.
    Opening a file for reading is abstracted as the predicate `readable`
    over path strings. */
module ScriptValidator {
  import opened NotifyTypes
  import opened ScriptName

  /** script_open_litteral: the whole string, unmodified, names a readable
      file. On a bare path this is the same decision as the tokenized check;
      on a string carrying arguments it opens the whole string, arguments
      included. */
  predicate ScriptOpenLiteral(readable: string -> bool, script: string): (ok: bool)
    ensures ok <==> readable(script)
    ensures NoTokenEnd(script) ==> (ok <==> readable(LeadingToken(script)))
  {
    LeadingTokenWhole(script);
    readable(script)
  }

  /** What script_open decides: the string is present and its leading token
      names a readable file. */
  predicate TokenizedOpens(readable: string -> bool, script: Option<string>)
  {
    script.Some? && readable(LeadingToken(script.value))
  }

  /** script_open: extract the leading token, then open it literally. */
  method ScriptOpen(readable: string -> bool, script: Option<string>) returns (ok: bool)
    ensures ok <==> script.Some? && ScriptOpenLiteral(readable, LeadingToken(script.value))
    ensures ok == TokenizedOpens(readable, script)
  {
    var name := NotifyScriptName(script);
    ok := if name.Some? then ScriptOpenLiteral(readable, name.value) else false;
  }

  /** On a bare path (no whitespace, no NUL) the two checks agree, whatever
      the filesystem holds. */
  lemma ChecksAgreeOnBarePath(readable: string -> bool, script: string)
    requires NoTokenEnd(script)
    ensures TokenizedOpens(readable, Some(script)) == ScriptOpenLiteral(readable, script)
  {
    LeadingTokenWhole(script);
  }

  /** A filesystem in which exactly one path is readable. */
  function OnlyReadable(path: string): (readable: string -> bool)
  {
    p => p == path
  }

  /** On a string with embedded arguments the two checks can disagree: when
      only its leading token is readable, the tokenized check passes and the
      literal one fails. */
  lemma ChecksDifferOnArguments(script: string, i: nat)
    requires i < |script| && IsSpace(script[i])
    ensures TokenizedOpens(OnlyReadable(LeadingToken(script)), Some(script))
    ensures !ScriptOpenLiteral(OnlyReadable(LeadingToken(script)), script)
  {
    LeadingTokenDropsArguments(script, i);
  }

  /** A string that is empty or starts with whitespace or NUL has the empty
      leading token, so the tokenized check opens "" and fails whenever the
      empty path is not readable (fopen("", "r") fails). */
  lemma TokenizedRejectsEmptyToken(readable: string -> bool, script: string)
    requires !readable([])
    requires script == [] || IsTokenEnd(script[0])
    ensures LeadingToken(script) == []
    ensures !TokenizedOpens(readable, Some(script))
  {
  }
}
