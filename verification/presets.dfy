/** Preset-group resolution (macOS/UXTU4Unix.py, `get_presets`): the
    processor name is cleaned of marketing words, then the processor type,
    the codename's place in release order and suffix letters of the cleaned
    name pick one preset module. */
module Presets {
  import opened Results
  import opened Lists
  import opened Strings
  import opened Classifier
  import Signature

  /** The words deleted from the processor name, in the order they are
      deleted. */
  const MarketingWords: seq<string> :=
    ["AMD", "with", "Mobile", "Ryzen", "Radeon", "Graphics", "Vega", "Gfx"]

  /** `c` occurs in none of `words`. */
  predicate OutsideAll(c: char, words: seq<string>) {
    forall i :: 0 <= i < |words| ==> c !in words[i]
  }

  /** Deletes every word of `words` in turn, each with `str.replace`. */
  function RemoveWords(s: string, words: seq<string>): (r: string)
    ensures |r| <= |s|
    decreases |words|
  {
    if |words| == 0 then s
    else RemoveWords(RemoveAll(s, words[0]), words[1..])
  }

  /** Deleting the words never lengthens the name and keeps every
      character outside all of them, each as often as before. */
  lemma {:induction false} RemoveWordsCounts(s: string, words: seq<string>)
    ensures multiset(RemoveWords(s, words)) <= multiset(s)
    ensures forall c :: OutsideAll(c, words) ==> multiset(RemoveWords(s, words))[c] == multiset(s)[c]
    decreases |words|
  {
    if |words| > 0 {
      var t := RemoveAll(s, words[0]);
      RemoveAllCounts(s, words[0]);
      RemoveWordsCounts(t, words[1..]);
      forall c | OutsideAll(c, words)
        ensures OutsideAll(c, words[1..]) && c !in words[0]
      {
        assert forall i :: 0 <= i < |words| - 1 ==> words[1..][i] == words[i + 1];
      }
    }
  }

  /** The cleaned model name the suffix tests look at. */
  function CleanName(cpu: string): string {
    RemoveWords(cpu, MarketingWords)
  }

  /** A character outside every marketing word is in the cleaned name
      exactly when it is in the original name. */
  lemma CleanKeepsChar(cpu: string, c: char)
    requires OutsideAll(c, MarketingWords)
    ensures c in CleanName(cpu) <==> c in cpu
  {
    RemoveWordsCounts(cpu, MarketingWords);
    assert multiset(CleanName(cpu))[c] == multiset(cpu)[c];
  }

  lemma {:induction false} RemoveWordsKeeps(s: string, words: seq<string>, sub: string)
    requires Contains(s, sub)
    requires forall k :: 0 <= k < |sub| ==> OutsideAll(sub[k], words)
    ensures Contains(RemoveWords(s, words), sub)
    decreases |words|
  {
    if |words| > 0 {
      assert Disjoint(sub, words[0]);
      RemoveAllKeeps(s, words[0], sub);
      forall k | 0 <= k < |sub|
        ensures OutsideAll(sub[k], words[1..])
      {
        assert forall i :: 0 <= i < |words| - 1 ==> words[1..][i] == words[i + 1];
      }
      RemoveWordsKeeps(RemoveAll(s, words[0]), words[1..], sub);
    }
  }

  /** A suffix hint made of characters outside every marketing word
      (`U`, `H`, `HX`, `HS`, `E`, `X`, `9`, ...) survives cleaning. */
  lemma CleanKeepsHint(cpu: string, sub: string)
    requires Contains(cpu, sub)
    requires forall k :: 0 <= k < |sub| ==> OutsideAll(sub[k], MarketingWords)
    ensures Contains(CleanName(cpu), sub)
  {
    RemoveWordsKeeps(cpu, MarketingWords, sub);
  }

  /** `c` occurs in one of `words`. */
  predicate InAny(c: char, words: seq<string>)
    decreases |words|
  {
    |words| > 0 && (c in words[0] || InAny(c, words[1..]))
  }

  lemma {:induction false} InAnyOutside(c: char, words: seq<string>)
    requires !InAny(c, words)
    ensures OutsideAll(c, words)
    decreases |words|
  {
    if |words| > 0 {
      InAnyOutside(c, words[1..]);
      assert forall i :: 1 <= i < |words| ==> words[i] == words[1..][i - 1];
    }
  }

  lemma NoMarketingH() ensures !InAny('H', MarketingWords) {}
  lemma NoMarketingX() ensures !InAny('X', MarketingWords) {}
  lemma NoMarketingU() ensures !InAny('U', MarketingWords) {}

  /** The preset modules under `Assets.Presets`. */
  datatype PresetModule =
    | ApuPreMatisseUeCe | ApuPreMatisseH | ApuPreMatisseGE | ApuPreMatisseG
    | ApuPostMatisseU | ApuPostMatisseHX | ApuPostMatisseHS | ApuPostMatisseH
    | ApuPostMatisseGE | ApuPostMatisseG
    | CpuPreRaphaelE | CpuPreRaphaelX3D | CpuPreRaphaelX9 | CpuPreRaphaelX | CpuPreRaphael
    | CpuE | CpuX3D | CpuX9
    | AmdCpu

  /** The module's name as the program spells it. */
  function ModuleName(m: PresetModule): string {
    match m
    case ApuPreMatisseUeCe => "AMDAPUPreMatisse_U_e_Ce"
    case ApuPreMatisseH => "AMDAPUPreMatisse_H"
    case ApuPreMatisseGE => "AMDAPUPreMatisse_GE"
    case ApuPreMatisseG => "AMDAPUPreMatisse_G"
    case ApuPostMatisseU => "AMDAPUPostMatisse_U"
    case ApuPostMatisseHX => "AMDAPUPostMatisse_HX"
    case ApuPostMatisseHS => "AMDAPUPostMatisse_HS"
    case ApuPostMatisseH => "AMDAPUPostMatisse_H"
    case ApuPostMatisseGE => "AMDAPUPostMatisse_GE"
    case ApuPostMatisseG => "AMDAPUPostMatisse_G"
    case CpuPreRaphaelE => "AMDCPUPreRaphael_E"
    case CpuPreRaphaelX3D => "AMDCPUPreRaphael_X3D"
    case CpuPreRaphaelX9 => "AMDCPUPreRaphael_X9"
    case CpuPreRaphaelX => "AMDCPUPreRaphael_X"
    case CpuPreRaphael => "AMDCPUPreRaphael"
    case CpuE => "AMDCPU_E"
    case CpuX3D => "AMDCPU_X3D"
    case CpuX9 => "AMDCPU_X9"
    case AmdCpu => "AMDCPU"
  }

  /** Why no module is loaded: the codename is not in the release-ordered
      list (`list.index` raises), or no branch set a module and the import
      of a module named `None` fails. */
  datatype PresetError = NotInFamilyList | NoModule

  /** The suffix tests of an APU released before Matisse. */
  function PreMatisseChain(m: string): PresetModule {
    if Contains(m, "U") || Contains(m, "e") || Contains(m, "Ce") then ApuPreMatisseUeCe
    else if Contains(m, "H") then ApuPreMatisseH
    else if Contains(m, "GE") then ApuPreMatisseGE
    else if Contains(m, "G") then ApuPreMatisseG
    else AmdCpu
  }

  /** The suffix tests of an APU released after Matisse. */
  function PostMatisseChain(m: string): PresetModule {
    if Contains(m, "U") then ApuPostMatisseU
    else if Contains(m, "HX") then ApuPostMatisseHX
    else if Contains(m, "HS") then ApuPostMatisseHS
    else if Contains(m, "H") then ApuPostMatisseH
    else if Contains(m, "GE") then ApuPostMatisseGE
    else if Contains(m, "G") then ApuPostMatisseG
    else AmdCpu
  }

  /** The suffix tests of a desktop processor released before Raphael. */
  function PreRaphaelChain(m: string): PresetModule {
    if Contains(m, "E") then CpuPreRaphaelE
    else if Contains(m, "X3D") then CpuPreRaphaelX3D
    else if Contains(m, "X") && Contains(m, "9") then CpuPreRaphaelX9
    else if Contains(m, "X") then CpuPreRaphaelX
    else CpuPreRaphael
  }

  /** The suffix tests of a desktop processor from Raphael on. */
  function RaphaelOnwardChain(m: string): PresetModule {
    if Contains(m, "E") then CpuE
    else if Contains(m, "X3D") then CpuX3D
    else if Contains(m, "X") && Contains(m, "9") then CpuX9
    else AmdCpu
  }

  /** The decision tree of `get_presets`: the type, then the codename's
      position against the pivot (`list.index` on both), then the suffix
      tests. */
  function Select(t: CpuType, c: Codename, m: string): (r: Result<PresetModule, PresetError>)
    ensures t == IntelCpu || t == UnknownCpu ==> r == Success(AmdCpu)
    ensures r.Failure? ==> t == Apu || t == DesktopCpu
  {
    if t == Apu then
      match (IndexOf(RyzenFamily, c), IndexOf(RyzenFamily, Matisse))
      case (Some(k), Some(pivot)) =>
        if k < pivot then Success(PreMatisseChain(m))
        else if k > pivot then Success(PostMatisseChain(m))
        else Failure(NoModule)
      case _ => Failure(NotInFamilyList)
    else if t == DesktopCpu then
      match (IndexOf(RyzenFamily, c), IndexOf(RyzenFamily, Raphael))
      case (Some(k), Some(pivot)) =>
        if k < pivot then Success(PreRaphaelChain(m)) else Success(RaphaelOnwardChain(m))
      case _ => Failure(NotInFamilyList)
    else Success(AmdCpu)
  }

  /** `get_presets` end to end: the module chosen for a stored type,
      codename and raw processor name. */
  function Resolve(t: CpuType, c: Codename, cpu: string): Result<PresetModule, PresetError> {
    Select(t, c, CleanName(cpu))
  }

  // ---------------------------------------------------------------------
  // Reference definition: ordered (hint, module) rules, first match wins.

  datatype Hint = Has(text: string) | HasBoth(first: string, second: string)

  predicate Holds(h: Hint, m: string) {
    match h
    case Has(t) => Contains(m, t)
    case HasBoth(a, b) => Contains(m, a) && Contains(m, b)
  }

  datatype Rule = Rule(hint: Hint, preset: PresetModule)

  /** The index of the first rule whose hint holds. */
  function FirstMatch(rules: seq<Rule>, m: string): (r: Option<nat>)
    ensures r.Some? ==> r.value < |rules| && Holds(rules[r.value].hint, m)
    ensures r.Some? ==> forall j :: 0 <= j < r.value ==> !Holds(rules[j].hint, m)
    ensures r.None? ==> forall j :: 0 <= j < |rules| ==> !Holds(rules[j].hint, m)
    decreases |rules|
  {
    if |rules| == 0 then None
    else if Holds(rules[0].hint, m) then Some(0)
    else
      match FirstMatch(rules[1..], m)
      case None => None
      case Some(i) => Some(i + 1)
  }

  /** The module of the first matching rule, or `fallback`. */
  function Decide(rules: seq<Rule>, m: string, fallback: PresetModule): PresetModule {
    match FirstMatch(rules, m)
    case Some(i) => rules[i].preset
    case None => fallback
  }

  const PreMatisseRules: seq<Rule> := [
    Rule(Has("U"), ApuPreMatisseUeCe), Rule(Has("e"), ApuPreMatisseUeCe),
    Rule(Has("Ce"), ApuPreMatisseUeCe), Rule(Has("H"), ApuPreMatisseH),
    Rule(Has("GE"), ApuPreMatisseGE), Rule(Has("G"), ApuPreMatisseG)]

  const PostMatisseRules: seq<Rule> := [
    Rule(Has("U"), ApuPostMatisseU), Rule(Has("HX"), ApuPostMatisseHX),
    Rule(Has("HS"), ApuPostMatisseHS), Rule(Has("H"), ApuPostMatisseH),
    Rule(Has("GE"), ApuPostMatisseGE), Rule(Has("G"), ApuPostMatisseG)]

  const PreRaphaelRules: seq<Rule> := [
    Rule(Has("E"), CpuPreRaphaelE), Rule(Has("X3D"), CpuPreRaphaelX3D),
    Rule(HasBoth("X", "9"), CpuPreRaphaelX9), Rule(Has("X"), CpuPreRaphaelX)]

  const RaphaelOnwardRules: seq<Rule> := [
    Rule(Has("E"), CpuE), Rule(Has("X3D"), CpuX3D), Rule(HasBoth("X", "9"), CpuX9)]

  /** Resolution stated over release ranks and rule tables. */
  function Reference(t: CpuType, c: Codename, m: string): Result<PresetModule, PresetError> {
    if t == Apu then
      if c == Intel then Failure(NotInFamilyList)
      else if Rank(c) < Rank(Matisse) then Success(Decide(PreMatisseRules, m, AmdCpu))
      else if Rank(c) > Rank(Matisse) then Success(Decide(PostMatisseRules, m, AmdCpu))
      else Failure(NoModule)
    else if t == DesktopCpu then
      if c == Intel then Failure(NotInFamilyList)
      else if Rank(c) < Rank(Raphael) then Success(Decide(PreRaphaelRules, m, CpuPreRaphael))
      else Success(Decide(RaphaelOnwardRules, m, AmdCpu))
    else Success(AmdCpu)
  }

  lemma PreMatisseRulesDecide(m: string)
    ensures PreMatisseChain(m) == Decide(PreMatisseRules, m, AmdCpu)
  {
  }

  lemma PostMatisseRulesDecide(m: string)
    ensures PostMatisseChain(m) == Decide(PostMatisseRules, m, AmdCpu)
  {
  }

  lemma PreRaphaelRulesDecide(m: string)
    ensures PreRaphaelChain(m) == Decide(PreRaphaelRules, m, CpuPreRaphael)
  {
  }

  lemma RaphaelOnwardRulesDecide(m: string)
    ensures RaphaelOnwardChain(m) == Decide(RaphaelOnwardRules, m, AmdCpu)
  {
  }

  lemma SelectApuIsReference(c: Codename, m: string)
    ensures Select(Apu, c, m) == Reference(Apu, c, m)
  {
    if c == Intel {
      SelectIntel(Apu, m);
    } else if Rank(c) < Rank(Matisse) {
      SelectPreMatisse(c, m);
      PreMatisseRulesDecide(m);
    } else if Rank(c) > Rank(Matisse) {
      SelectPostMatisse(c, m);
      PostMatisseRulesDecide(m);
    } else {
      SelectPivot(c, m);
    }
  }

  lemma SelectDesktopIsReference(c: Codename, m: string)
    ensures Select(DesktopCpu, c, m) == Reference(DesktopCpu, c, m)
  {
    if c == Intel {
      SelectIntel(DesktopCpu, m);
    } else if Rank(c) < Rank(Raphael) {
      SelectPreRaphael(c, m);
      PreRaphaelRulesDecide(m);
    } else {
      SelectRaphaelOnward(c, m);
      RaphaelOnwardRulesDecide(m);
    }
  }

  /** `Intel` is not in the family list, so a typed AMD processor carrying
      it gets no module. */
  lemma SelectIntel(t: CpuType, m: string)
    requires t == Apu || t == DesktopCpu
    ensures Select(t, Intel, m) == Failure(NotInFamilyList)
  {
    IndexIsRank(Intel);
  }

  /** The APU branch tests neither side of the pivot at the pivot. */
  lemma SelectPivot(c: Codename, m: string)
    requires c != Intel && Rank(c) == Rank(Matisse)
    ensures Select(Apu, c, m) == Failure(NoModule)
  {
    IndexIsRank(c);
    IndexIsRank(Matisse);
  }

  /** The decision tree is the first-match evaluation of the rule tables,
      ordered by release rank. */
  lemma SelectIsReference(t: CpuType, c: Codename, m: string)
    ensures Select(t, c, m) == Reference(t, c, m)
  {
    if t == Apu {
      SelectApuIsReference(c, m);
    } else if t == DesktopCpu {
      SelectDesktopIsReference(c, m);
    }
  }

  /** An APU released before Matisse goes through the pre-Matisse tests. */
  lemma SelectPreMatisse(c: Codename, m: string)
    requires c != Intel && Rank(c) < Rank(Matisse)
    ensures Select(Apu, c, m) == Success(PreMatisseChain(m))
  {
    IndexIsRank(c);
    IndexIsRank(Matisse);
  }

  /** An APU released after Matisse goes through the post-Matisse tests. */
  lemma SelectPostMatisse(c: Codename, m: string)
    requires c != Intel && Rank(c) > Rank(Matisse)
    ensures Select(Apu, c, m) == Success(PostMatisseChain(m))
  {
    IndexIsRank(c);
    IndexIsRank(Matisse);
  }

  /** A desktop processor released before Raphael goes through the
      pre-Raphael tests. */
  lemma SelectPreRaphael(c: Codename, m: string)
    requires c != Intel && Rank(c) < Rank(Raphael)
    ensures Select(DesktopCpu, c, m) == Success(PreRaphaelChain(m))
  {
    IndexIsRank(c);
    IndexIsRank(Raphael);
  }

  /** A desktop processor from Raphael on goes through the later tests. */
  lemma SelectRaphaelOnward(c: Codename, m: string)
    requires c != Intel && Rank(c) >= Rank(Raphael)
    ensures Select(DesktopCpu, c, m) == Success(RaphaelOnwardChain(m))
  {
    IndexIsRank(c);
    IndexIsRank(Raphael);
  }

  /** Every name with `Ce` also has `e`, so the `Ce` test never decides. */
  lemma CeIsRedundant(m: string)
    requires Contains(m, "Ce")
    ensures Contains(m, "e")
  {
    assert "Ce" == "C" + "e";
    ContainsParts(m, "C", "e");
  }

  /** Post-Matisse APUs: `U`, then `HX` before `HS` before `H`, then `GE`
      before `G`. */
  lemma PostMatissePriority(m: string)
    ensures Contains(m, "U") ==> PostMatisseChain(m) == ApuPostMatisseU
    ensures !Contains(m, "U") && Contains(m, "HX") ==> PostMatisseChain(m) == ApuPostMatisseHX
    ensures !Contains(m, "U") && !Contains(m, "HX") && Contains(m, "HS") ==>
      PostMatisseChain(m) == ApuPostMatisseHS
    ensures !Contains(m, "U") && !Contains(m, "HX") && !Contains(m, "HS") && Contains(m, "H") ==>
      PostMatisseChain(m) == ApuPostMatisseH
    ensures !Contains(m, "U") && !Contains(m, "H") && Contains(m, "GE") ==>
      PostMatisseChain(m) == ApuPostMatisseGE
  {
    if Contains(m, "HX") {
      assert "HX" == "H" + "X";
      ContainsParts(m, "H", "X");
    }
    if Contains(m, "HS") {
      assert "HS" == "H" + "S";
      ContainsParts(m, "H", "S");
    }
  }

  /** Pre-Matisse APUs: `U`/`e`/`Ce`, then `H`, then `GE` before `G`. */
  lemma PreMatissePriority(m: string)
    ensures Contains(m, "U") || Contains(m, "e") ==> PreMatisseChain(m) == ApuPreMatisseUeCe
    ensures !Contains(m, "U") && !Contains(m, "e") && Contains(m, "H") ==>
      PreMatisseChain(m) == ApuPreMatisseH
    ensures !Contains(m, "U") && !Contains(m, "e") && !Contains(m, "H") && Contains(m, "GE") ==>
      PreMatisseChain(m) == ApuPreMatisseGE
  {
    if Contains(m, "Ce") {
      CeIsRedundant(m);
    }
  }

  /** Desktop processors: `E` before `X3D` before `X` with `9` before plain
      `X`; from Raphael on, a name with `X` but no `9` gets the generic
      group. */
  lemma DesktopPriority(c: Codename, m: string)
    requires c != Intel
    ensures Contains(m, "E") ==>
      Select(DesktopCpu, c, m) == Success(if Rank(c) < Rank(Raphael) then CpuPreRaphaelE else CpuE)
    ensures !Contains(m, "E") && Contains(m, "X3D") ==>
      Select(DesktopCpu, c, m) == Success(if Rank(c) < Rank(Raphael) then CpuPreRaphaelX3D else CpuX3D)
    ensures !Contains(m, "E") && !Contains(m, "X3D") && Contains(m, "X") && Contains(m, "9") ==>
      Select(DesktopCpu, c, m) == Success(if Rank(c) < Rank(Raphael) then CpuPreRaphaelX9 else CpuX9)
    ensures !Contains(m, "E") && !Contains(m, "X3D") && Contains(m, "X") && !Contains(m, "9") ==>
      Select(DesktopCpu, c, m) == Success(if Rank(c) < Rank(Raphael) then CpuPreRaphaelX else AmdCpu)
  {
    if Rank(c) < Rank(Raphael) {
      SelectPreRaphael(c, m);
    } else {
      SelectRaphaelOnward(c, m);
    }
  }

  /** Raphael itself takes the at-or-after branch. */
  lemma RaphaelIsOnward(m: string)
    ensures Select(DesktopCpu, Raphael, m) == Success(Decide(RaphaelOnwardRules, m, AmdCpu))
  {
    SelectDesktopIsReference(Raphael, m);
  }

  /** The APU branch has a gap at the pivot itself: an APU typed `Matisse`
      would get no module. */
  lemma MatisseApuGap(m: string)
    ensures Select(Apu, Matisse, m) == Failure(NoModule)
  {
    SelectPivot(Matisse, m);
  }

  /** Selection succeeds unless an APU carries `Matisse` or a typed AMD
      processor carries `Intel`. */
  lemma SelectTotal(t: CpuType, c: Codename, m: string)
    requires t == Apu ==> c != Intel && c != Matisse
    requires t == DesktopCpu ==> c != Intel
    ensures Select(t, c, m).Success?
  {
    if t == Apu {
      if Rank(c) < Rank(Matisse) {
        SelectPreMatisse(c, m);
      } else {
        assert Rank(c) != Rank(Matisse) by {
          ListedAtRank(c);
          ListedAtRank(Matisse);
        }
        SelectPostMatisse(c, m);
      }
    } else if t == DesktopCpu {
      if Rank(c) < Rank(Raphael) {
        SelectPreRaphael(c, m);
      } else {
        SelectRaphaelOnward(c, m);
      }
    }
  }

  /** Every type and codename classification can produce resolves to a
      module: `Matisse` is always typed as a desktop processor, so the APU
      gap is never reached, and no AMD type carries the `Intel` codename. */
  lemma ResolveTotal(cpu: string, sig: Signature.CpuSignature, name: string)
    ensures Resolve(TypeOf(Classify(cpu, sig)), Classify(cpu, sig).codename, name).Success?
  {
    var cl := Classify(cpu, sig);
    var t := TypeOf(cl);
    assert t == Apu ==> cl.codename != Matisse;
    assert t == Apu || t == DesktopCpu ==> cl.codename != Intel;
    SelectTotal(t, cl.codename, CleanName(name));
  }

  /** A post-Matisse APU (Dragon Range, the HX variant of family 25,
      model 97, among them) named with `HX` and without `U` resolves to the
      post-Matisse HX group: the marketing words never touch `H`, `X` or
      `U`. */
  lemma PostMatisseHX(c: Codename, cpu: string)
    requires c != Intel && Rank(c) > Rank(Matisse)
    requires Contains(cpu, "HX") && 'U' !in cpu
    ensures Resolve(Apu, c, cpu) == Success(ApuPostMatisseHX)
  {
    var m := CleanName(cpu);
    CleanKeepsHX(cpu);
    CleanLacksU(cpu);
    PostMatissePriority(m);
    SelectPostMatisse(c, m);
  }

  lemma CleanKeepsHX(cpu: string)
    requires Contains(cpu, "HX")
    ensures Contains(CleanName(cpu), "HX")
  {
    NoMarketingH();
    InAnyOutside('H', MarketingWords);
    NoMarketingX();
    InAnyOutside('X', MarketingWords);
    CleanKeepsHint(cpu, "HX");
  }

  lemma CleanLacksU(cpu: string)
    requires 'U' !in cpu
    ensures !Contains(CleanName(cpu), "U")
  {
    NoMarketingU();
    InAnyOutside('U', MarketingWords);
    CleanKeepsChar(cpu, 'U');
    ContainsChar(CleanName(cpu), 'U');
  }
}
