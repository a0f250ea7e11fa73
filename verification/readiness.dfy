/** The readiness test of macOS/UXTU4Unix.py (`check_run`): the tuning
    tool may only run once the kernel boot arguments carry the debug flag
    and the configured System Integrity Protection value is active. */
module Readiness {
  import opened Results
  import opened Strings

  /** The boot argument that must be present. */
  const DebugFlag: string := "debug=0x144"

  /** The `SIP` setting used when the configuration has none. */
  const DefaultSip: string := "03080000"

  /** The readiness verdict from the output of `nvram boot-args` and of
      `nvram csr-active-config` (`None` where the query fails). The second
      query is made only when the flag is present; the SIP text is then
      looked for, case-sensitively, in the output with every `%` deleted. */
  function Ready(bootArgs: Option<string>, csr: Option<string>, sip: string): (r: bool)
    ensures r ==> bootArgs.Some? && Contains(bootArgs.value, DebugFlag)
    ensures r ==> csr.Some? && '%' !in sip
    ensures bootArgs.Some? && Contains(bootArgs.value, DebugFlag) && csr.Some? ==>
      (r <==> Contains(RemoveAll(csr.value, "%"), sip))
  {
    match bootArgs
    case None => false
    case Some(b) =>
      if !Contains(b, DebugFlag) then false
      else
        match csr
        case None => false
        case Some(c) =>
          var cleaned := RemoveAll(c, "%");
          if Contains(cleaned, sip) then
            RemoveCharGone(c, '%');
            ContainsSubsetChars(cleaned, sip, '%');
            true
          else false
  }

  /** A needle is made of characters of the haystack. */
  lemma ContainsSubsetChars(s: string, sub: string, c: char)
    requires Contains(s, sub) && c !in s
    ensures c !in sub
  {
    var i := ContainsOccurs(s, sub);
    forall j | 0 <= j < |sub|
      ensures sub[j] != c
    {
      assert sub[j] == s[i..i + |sub|][j] == s[i + j];
    }
  }

  /** With the flag present, a csr output that shows the SIP text verbatim
      makes the machine ready, whatever `%` signs surround it. */
  lemma ReadyWhenShown(b: string, c: string, sip: string)
    requires Contains(b, DebugFlag)
    requires Contains(c, sip) && '%' !in sip
    ensures Ready(Some(b), Some(c), sip)
  {
    RemoveAllKeeps(c, "%", sip);
  }

  /** A `%` anywhere in the csr output never changes the verdict. */
  lemma PercentIgnored(b: Option<string>, x: string, y: string, sip: string)
    ensures Ready(b, Some(x + "%" + y), sip) == Ready(b, Some(x + y), sip)
  {
    assert x + "%" + y == x + ("%" + y);
    RemoveCharConcat(x, "%" + y, '%');
    RemoveCharStep("%" + y, '%');
    assert ("%" + y)[1..] == y;
    RemoveCharConcat(x, y, '%');
  }
}
