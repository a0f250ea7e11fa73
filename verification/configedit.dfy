/** The NVRAM part of the OpenCore configuration editor (`edit_config` in
    macOS/UXTU4Unix.py): the debug flag is appended to `boot-args` when it
    is missing, and `csr-active-config` is set to the bytes of the
    configured SIP hex text. */
module ConfigEdit {
  import opened Results
  import opened Strings
  import Readiness

  newtype byte = x: int | 0 <= x < 256

  /** The entries of `NVRAM/Add/7C436110-AB2A-4BBB-A880-FE41995C9F82` the
      editor touches. */
  datatype NvramAdd = NvramAdd(bootArgs: Option<string>, csrActiveConfig: Option<seq<byte>>)

  /** The boot-args patch: absent boot-args stay absent, present ones gain
      ` debug=0x144` unless they already contain the flag. */
  function PatchBootArgs(b: Option<string>): (r: Option<string>)
    ensures r.None? <==> b.None?
    ensures r.Some? ==> Contains(r.value, Readiness.DebugFlag)
    ensures r.Some? ==> IsPrefix(b.value, r.value)
    ensures b.Some? && Contains(b.value, Readiness.DebugFlag) ==> r == b
    ensures b.Some? && !Contains(b.value, Readiness.DebugFlag) ==> r.value[|b.value|..] == " " + Readiness.DebugFlag
  {
    match b
    case None => None
    case Some(s) =>
      if Contains(s, Readiness.DebugFlag) then b
      else
        var t := s + " " + Readiness.DebugFlag;
        assert t == (s + " ") + Readiness.DebugFlag;
        ContainsHalves(s + " ", Readiness.DebugFlag);
        assert t[..|s|] == s;
        Some(t)
  }

  /** Patching twice is patching once. */
  lemma PatchIdempotent(b: Option<string>)
    ensures PatchBootArgs(PatchBootArgs(b)) == PatchBootArgs(b)
  {
  }

  /** After the patch, and once the machine has booted with it, the flag
      half of the readiness test passes: a `nvram boot-args` output that
      shows the patched value and a csr output showing the SIP text make the
      machine ready. */
  lemma PatchMakesReady(b: string, out: string, csr: string, sip: string)
    requires Contains(out, PatchBootArgs(Some(b)).value)
    requires Contains(csr, sip) && '%' !in sip
    ensures Readiness.Ready(Some(out), Some(csr), sip)
  {
    ContainsTrans(out, PatchBootArgs(Some(b)).value, Readiness.DebugFlag);
    Readiness.ReadyWhenShown(out, csr, sip);
  }

  predicate IsHexDigit(c: char) {
    '0' <= c <= '9' || 'a' <= c <= 'f' || 'A' <= c <= 'F'
  }

  function HexValue(c: char): (v: byte)
    requires IsHexDigit(c)
    ensures v < 16
  {
    if '0' <= c <= '9' then (c as int - '0' as int) as byte
    else if 'a' <= c <= 'f' then (c as int - 'a' as int + 10) as byte
    else (c as int - 'A' as int + 10) as byte
  }

  /** The lower-case digit `binascii.hexlify` writes. */
  function HexChar(v: int): (c: char)
    requires 0 <= v < 16
    ensures IsHexDigit(c) && HexValue(c) as int == v
  {
    if v < 10 then ('0' as int + v) as char else ('a' as int + v - 10) as char
  }

  /** `binascii.unhexlify`: `None` where it raises, that is for an odd
      length or a character that is not a hex digit. */
  function Unhexlify(s: string): (r: Option<seq<byte>>)
    ensures r.Some? ==> |s| % 2 == 0 && |r.value| == |s| / 2
    ensures r.Some? ==> forall k :: 0 <= k < |s| ==> IsHexDigit(s[k])
    decreases |s|
  {
    if |s| == 0 then Some([])
    else if |s| == 1 || !IsHexDigit(s[0]) || !IsHexDigit(s[1]) then None
    else
      match Unhexlify(s[2..])
      case None => None
      case Some(rest) =>
        assert forall k :: 2 <= k < |s| ==> s[k] == s[2..][k - 2];
        Some([HexValue(s[0]) * 16 + HexValue(s[1])] + rest)
  }

  /** `binascii.hexlify(...).decode()`. */
  function Hexlify(b: seq<byte>): (s: string)
    ensures |s| == 2 * |b|
    ensures forall k :: 0 <= k < |s| ==> IsHexDigit(s[k])
  {
    if |b| == 0 then []
    else [HexChar(b[0] as int / 16), HexChar(b[0] as int % 16)] + Hexlify(b[1..])
  }

  /** Every byte string survives writing it as hex and reading it back. */
  lemma {:induction false} UnhexlifyHexlify(b: seq<byte>)
    ensures Unhexlify(Hexlify(b)) == Some(b)
  {
    if |b| > 0 {
      UnhexlifyHexlify(b[1..]);
      var s := Hexlify(b);
      var hi := b[0] as int / 16;
      var lo := b[0] as int % 16;
      assert s[0] == HexChar(hi) && s[1] == HexChar(lo);
      assert s[2..] == Hexlify(b[1..]);
      assert (HexValue(s[0]) * 16 + HexValue(s[1])) as int == hi * 16 + lo == b[0] as int;
      assert Unhexlify(s) == Some([HexValue(s[0]) * 16 + HexValue(s[1])] + b[1..]);
      assert [b[0]] + b[1..] == b;
    }
  }

  /** Why the editor stops: the SIP text is not valid hex. */
  datatype EditError = SipNotHex

  /** `edit_config` on the NVRAM entries, given the `SIP` setting. The
      section is `None` when the plist has no such dictionary: the editor
      then patches a fresh dictionary that is never stored, so the plist is
      written back unchanged. An invalid SIP text raises before anything is
      written. */
  function EditConfig(section: Option<NvramAdd>, sip: string): (r: Result<Option<NvramAdd>, EditError>)
    ensures r.Failure? <==> Unhexlify(sip).None?
    ensures r.Success? ==> (r.value.None? <==> section.None?)
    ensures r.Success? && r.value.Some? ==>
      r.value.value.bootArgs == PatchBootArgs(section.value.bootArgs)
      && r.value.value.csrActiveConfig == Unhexlify(sip)
  {
    match Unhexlify(sip)
    case None => Failure(SipNotHex)
    case Some(bytes) =>
      match section
      case None => Success(None)
      case Some(n) => Success(Some(NvramAdd(PatchBootArgs(n.bootArgs), Some(bytes))))
  }

  /** Editing twice leaves the entries as editing once does. */
  lemma EditIdempotent(section: Option<NvramAdd>, sip: string)
    requires EditConfig(section, sip).Success?
    ensures EditConfig(EditConfig(section, sip).value, sip) == EditConfig(section, sip)
  {
    if section.Some? {
      PatchIdempotent(section.value.bootArgs);
    }
  }

  /** The written csr value is the SIP text read back as bytes: hexlifying
      it gives the text again, in lower case. */
  lemma EditWritesSip(section: NvramAdd, sip: string)
    requires EditConfig(Some(section), sip).Success?
    ensures Hexlify(EditConfig(Some(section), sip).value.value.csrActiveConfig.value) == Lower(sip)
  {
    HexlifyUnhexlify(sip);
  }

  /** Valid hex text read and rewritten comes back in lower case. */
  lemma {:induction false} HexlifyUnhexlify(s: string)
    requires Unhexlify(s).Some?
    ensures Hexlify(Unhexlify(s).value) == Lower(s)
    decreases |s|
  {
    if |s| > 0 {
      HexlifyUnhexlify(s[2..]);
      var b := Unhexlify(s).value;
      assert b == [HexValue(s[0]) * 16 + HexValue(s[1])] + Unhexlify(s[2..]).value;
      ByteDigits(HexValue(s[0]) as int, HexValue(s[1]) as int);
      HexCharLower(s[0]);
      HexCharLower(s[1]);
      assert Lower(s) == [LowerChar(s[0]), LowerChar(s[1])] + Lower(s[2..]);
    }
  }

  /** The digit written for a digit's value is its lower-case form. */
  lemma HexCharLower(c: char)
    requires IsHexDigit(c)
    ensures HexChar(HexValue(c) as int) == LowerChar(c)
  {
  }

  /** A byte built from two digits splits back into them. */
  lemma ByteDigits(hi: int, lo: int)
    requires 0 <= hi < 16 && 0 <= lo < 16
    ensures (hi * 16 + lo) / 16 == hi && (hi * 16 + lo) % 16 == lo
  {
  }
}
