/** Extraction of the script path from a command line (notify_script_name). */
module ScriptName {
  import opened NotifyTypes

  /** `isspace` in the C locale: space, tab, newline, vertical tab, form feed,
      carriage return. */
  predicate IsSpace(c: char)
  {
    c == ' ' || c == '\t' || c == '\n' || c == '\U{B}' || c == '\U{C}' || c == '\r'
  }

  /** A character that stops the scan: whitespace or NUL. */
  predicate IsTokenEnd(c: char)
  {
    IsSpace(c) || c == '\0'
  }

  /** True when no character of `s` stops the scan. */
  predicate NoTokenEnd(s: string)
  {
    forall i :: 0 <= i < |s| ==> !IsTokenEnd(s[i])
  }

  /** The leading token of a command line: its characters up to the first
      whitespace or NUL (the end of the sequence stands for the terminator). */
  function LeadingToken(s: string): (r: string)
    ensures r <= s
    ensures NoTokenEnd(r)
    ensures |r| == |s| || IsTokenEnd(s[|r|])
  {
    if s == [] || IsTokenEnd(s[0]) then [] else [s[0]] + LeadingToken(s[1..])
  }

  /** The three properties above single out the leading token: it is the
      unique prefix free of separators that stops at a separator or the end. */
  lemma {:induction false} LeadingTokenCharacterised(s: string, t: string)
    ensures t == LeadingToken(s) <==> (t <= s && NoTokenEnd(t) && (|t| == |s| || IsTokenEnd(s[|t|])))
  {
    var r := LeadingToken(s);
    if t <= s && NoTokenEnd(t) && (|t| == |s| || IsTokenEnd(s[|t|])) {
      assert t == s[..|t|] == r;
    }
  }

  /** The leading token is the longest separator-free prefix. */
  lemma LeadingTokenLongest(s: string, t: string)
    requires t <= s && NoTokenEnd(t)
    ensures |t| <= |LeadingToken(s)|
  {
  }

  /** A command line without separators is its own leading token, and only then. */
  lemma {:induction false} LeadingTokenWhole(s: string)
    ensures LeadingToken(s) == s <==> NoTokenEnd(s)
  {
    var r := LeadingToken(s);
    if NoTokenEnd(s) {
      assert |r| == |s|;
      assert r == s[..|r|] == s;
    }
  }

  /** Extracting twice gives the same token as extracting once. */
  lemma LeadingTokenIdempotent(s: string)
    ensures LeadingToken(LeadingToken(s)) == LeadingToken(s)
  {
    LeadingTokenWhole(LeadingToken(s));
  }

  /** A command line carrying whitespace-separated arguments is strictly longer
      than its leading token. */
  lemma LeadingTokenDropsArguments(s: string, i: nat)
    requires i < |s| && IsSpace(s[i])
    ensures LeadingToken(s) != s
    ensures |LeadingToken(s)| <= i
  {
    LeadingTokenWhole(s);
    LeadingTokenLongest(s, LeadingToken(s));
  }

  /** notify_script_name: NULL gives NULL; otherwise advance a cursor past every
      character that is neither whitespace nor NUL and copy the prefix it has
      passed into a fresh string. */
  method NotifyScriptName(cmdline: Option<string>) returns (script: Option<string>)
    ensures cmdline.None? <==> script.None?
    ensures cmdline.Some? ==> script == Some(LeadingToken(cmdline.value))
  {
    if cmdline.None? {
      return None;
    }
    var s := cmdline.value;
    var cp := 0;
    while cp < |s| && !IsSpace(s[cp]) && s[cp] != '\0'
      invariant 0 <= cp <= |s|
      invariant forall k :: 0 <= k < cp ==> !IsTokenEnd(s[k])
    {
      cp := cp + 1;
    }
    LeadingTokenCharacterised(s, s[..cp]);
    var strLen := cp;
    script := Some(s[..strLen]);
  }
}
