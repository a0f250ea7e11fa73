/** Processor classification (macOS/UXTU4Unix.py, `ryzen_family` and
    `get_codename`): the codename list in release order, the mapping from
    processor name and signature to an architecture band and a codename, and
    the processor type derived from those two. */
module Classifier {
  import opened Results
  import opened Lists
  import opened Strings
  import Signature

  /** The codenames the program knows. `Intel` is the codename given to an
      Intel processor; it is not part of the release-ordered list. The
      program spells `CezanneBarcelo` as `Cezanne_Barcelo`. */
  datatype Codename =
    | Unknown | SummitRidge | PinnacleRidge | RavenRidge | Dali | Pollock
    | Picasso | FireFlight | Matisse | Renoir | Lucienne | VanGogh | Mendocino
    | Vermeer | CezanneBarcelo | Rembrandt | Raphael | DragonRange | PhoenixPoint
    | PhoenixPoint2 | HawkPoint | SonomaValley | GraniteRidge | FireRange
    | StrixPoint | StrixPoint2 | Sarlak
    | Intel

  /** `ryzen_family`: the AMD codenames in release order, `Unknown` first. */
  const RyzenFamily: seq<Codename> := [
    Unknown, SummitRidge, PinnacleRidge, RavenRidge, Dali, Pollock,
    Picasso, FireFlight, Matisse, Renoir, Lucienne, VanGogh, Mendocino,
    Vermeer, CezanneBarcelo, Rembrandt, Raphael, DragonRange, PhoenixPoint,
    PhoenixPoint2, HawkPoint, SonomaValley, GraniteRidge, FireRange,
    StrixPoint, StrixPoint2, Sarlak
  ]

  /** The position of a codename in release order. */
  function Rank(c: Codename): nat {
    match c
    case Unknown => 0
    case SummitRidge => 1
    case PinnacleRidge => 2
    case RavenRidge => 3
    case Dali => 4
    case Pollock => 5
    case Picasso => 6
    case FireFlight => 7
    case Matisse => 8
    case Renoir => 9
    case Lucienne => 10
    case VanGogh => 11
    case Mendocino => 12
    case Vermeer => 13
    case CezanneBarcelo => 14
    case Rembrandt => 15
    case Raphael => 16
    case DragonRange => 17
    case PhoenixPoint => 18
    case PhoenixPoint2 => 19
    case HawkPoint => 20
    case SonomaValley => 21
    case GraniteRidge => 22
    case FireRange => 23
    case StrixPoint => 24
    case StrixPoint2 => 25
    case Sarlak => 26
    case Intel => 27
  }

  lemma RankOfListed(i: nat)
    requires i < |RyzenFamily|
    ensures Rank(RyzenFamily[i]) == i
  {
  }

  lemma ListedAtRank(c: Codename)
    requires c != Intel
    ensures Rank(c) < |RyzenFamily| && RyzenFamily[Rank(c)] == c
  {
  }

  /** `ryzen_family.index(c)` is the codename's release rank for every AMD
      codename, and raises for `Intel`. */
  lemma IndexIsRank(c: Codename)
    ensures c != Intel ==> IndexOf(RyzenFamily, c) == Some(Rank(c))
    ensures c == Intel ==> IndexOf(RyzenFamily, c) == None
  {
    if c != Intel {
      ListedAtRank(c);
      var r := IndexOf(RyzenFamily, c);
      RankOfListed(r.value);
    } else {
      forall i | 0 <= i < |RyzenFamily|
        ensures RyzenFamily[i] != Intel
      {
        RankOfListed(i);
      }
    }
  }

  /** The architecture band. */
  datatype Arch = Zen1To2 | Zen3To4 | Zen5To6 | IntelArch | UnknownArch

  /** The band labels the program stores. */
  function ArchText(a: Arch): string {
    match a
    case Zen1To2 => "Zen 1 - Zen 2"
    case Zen3To4 => "Zen 3 - Zen 4"
    case Zen5To6 => "Zen 5 - Zen 6"
    case IntelArch => "Intel"
    case UnknownArch => "Unknown"
  }

  /** The processor type (`Amd_Desktop_Cpu`, `Amd_Apu`, `Intel`, `Unknown`). */
  datatype CpuType = DesktopCpu | Apu | IntelCpu | UnknownCpu

  datatype Classification = Classification(arch: Arch, codename: Codename)

  /** Reference tables: the band of each AMD family, and the codename of
      each model that needs no name test. */
  const Bands: map<int, Arch> := map[23 := Zen1To2, 25 := Zen3To4, 26 := Zen5To6]

  const Zen1To2Models: map<int, Codename> := map[
    1 := SummitRidge, 8 := PinnacleRidge, 17 := RavenRidge, 18 := RavenRidge,
    24 := Picasso, 80 := FireFlight, 96 := Renoir, 104 := Lucienne,
    113 := Matisse, 144 := VanGogh, 160 := Mendocino]

  const Zen3To4Models: map<int, Codename> := map[
    33 := Vermeer, 63 := Rembrandt, 68 := Rembrandt, 80 := CezanneBarcelo,
    116 := PhoenixPoint, 117 := HawkPoint, 120 := PhoenixPoint2]

  /** Low-power Dali parts that are sold as Pollock. */
  predicate PollockName(cpu: string) {
    Contains(cpu, "15e") || Contains(cpu, "15Ce") || Contains(cpu, "20e")
  }

  function Zen1To2Codename(cpu: string, model: int): Codename {
    if model == 1 then SummitRidge
    else if model == 8 then PinnacleRidge
    else if model == 17 || model == 18 then RavenRidge
    else if model == 24 then Picasso
    else if model == 32 then (if PollockName(cpu) then Pollock else Dali)
    else if model == 80 then FireFlight
    else if model == 96 then Renoir
    else if model == 104 then Lucienne
    else if model == 113 then Matisse
    else if model == 144 then VanGogh
    else if model == 160 then Mendocino
    else Unknown
  }

  function Zen3To4Codename(cpu: string, model: int): Codename {
    if model == 33 then Vermeer
    else if model == 63 || model == 68 then Rembrandt
    else if model == 80 then CezanneBarcelo
    else if model == 97 then (if Contains(cpu, "HX") then DragonRange else Raphael)
    else if model == 116 then PhoenixPoint
    else if model == 120 then PhoenixPoint2
    else if model == 117 then HawkPoint
    else Unknown
  }

  /** The codenames classification can produce. */
  const Produced: set<Codename> := {
    Unknown, SummitRidge, PinnacleRidge, RavenRidge, Dali, Pollock, Picasso,
    FireFlight, Matisse, Renoir, Lucienne, VanGogh, Mendocino, Vermeer,
    CezanneBarcelo, Rembrandt, Raphael, DragonRange, PhoenixPoint,
    PhoenixPoint2, HawkPoint, GraniteRidge, StrixPoint, Intel}

  /** Architecture band and codename from the processor name and the parsed
      signature. A processor named exactly `Intel` skips the family test;
      otherwise the family picks the band and the model the codename. */
  function Classify(cpu: string, sig: Signature.CpuSignature): (r: Classification)
    ensures r.codename == Intel <==> cpu == "Intel"
    ensures cpu == "Intel" ==> r.arch == IntelArch
    ensures cpu != "Intel" ==> r.arch == (if sig.family in Bands then Bands[sig.family] else UnknownArch)
    ensures r.arch == UnknownArch ==> r.codename == Unknown
    ensures r.codename in Produced
  {
    if cpu == "Intel" then Classification(IntelArch, Intel)
    else if sig.family == 23 then Classification(Zen1To2, Zen1To2Codename(cpu, sig.model))
    else if sig.family == 25 then Classification(Zen3To4, Zen3To4Codename(cpu, sig.model))
    else if sig.family == 26 then
      Classification(Zen5To6, if sig.model == 32 then StrixPoint else GraniteRidge)
    else Classification(UnknownArch, Unknown)
  }

  const DesktopCodenames: set<Codename> :=
    {SummitRidge, PinnacleRidge, Matisse, Vermeer, Raphael, GraniteRidge}

  /** The type test of `get_codename`: the desktop codename set first, then
      the Intel and Unknown bands, and every other case is an APU. */
  function TypeOf(c: Classification): CpuType {
    if c.codename in DesktopCodenames then DesktopCpu
    else if c.arch == IntelArch then IntelCpu
    else if c.arch == UnknownArch then UnknownCpu
    else Apu
  }

  /** `get_codename` as a whole: a signature that cannot be parsed raises
      before anything is classified, even for an Intel processor. */
  function GetCodename(cpu: string, signature: string): (r: Result<(Classification, CpuType), Signature.SignatureError>)
    ensures r.Success? <==> Signature.Parse(signature).Success?
    ensures r.Success? ==> r.value.0 == Classify(cpu, Signature.Parse(signature).value)
    ensures r.Success? ==> r.value.1 == TypeOf(r.value.0)
  {
    var sig :- Signature.Parse(signature);
    var c := Classify(cpu, sig);
    Success((c, TypeOf(c)))
  }

  /** Models that need no name test follow the reference tables; an unlisted
      model keeps its family's band with codename `Unknown`. */
  lemma ClassifyFollowsTables(cpu: string, sig: Signature.CpuSignature)
    requires cpu != "Intel"
    ensures sig.family == 23 && sig.model != 32 ==>
      Classify(cpu, sig).codename == (if sig.model in Zen1To2Models then Zen1To2Models[sig.model] else Unknown)
    ensures sig.family == 25 && sig.model != 97 ==>
      Classify(cpu, sig).codename == (if sig.model in Zen3To4Models then Zen3To4Models[sig.model] else Unknown)
  {
    if sig.family == 23 && sig.model != 32 {
      ClassifyZen1To2(cpu, sig);
    } else if sig.family == 25 && sig.model != 97 {
      ClassifyZen3To4(cpu, sig);
    }
  }

  lemma ClassifyZen1To2(cpu: string, sig: Signature.CpuSignature)
    requires cpu != "Intel" && sig.family == 23 && sig.model != 32
    ensures Classify(cpu, sig).codename == (if sig.model in Zen1To2Models then Zen1To2Models[sig.model] else Unknown)
  {
  }

  lemma ClassifyZen3To4(cpu: string, sig: Signature.CpuSignature)
    requires cpu != "Intel" && sig.family == 25 && sig.model != 97
    ensures Classify(cpu, sig).codename == (if sig.model in Zen3To4Models then Zen3To4Models[sig.model] else Unknown)
  {
  }

  /** Family 23 model 32 is Pollock exactly for the 15e, 15Ce and 20e parts,
      and Dali otherwise. */
  lemma PollockIff(cpu: string, sig: Signature.CpuSignature)
    requires cpu != "Intel" && sig.family == 23 && sig.model == 32
    ensures Classify(cpu, sig).codename == Pollock <==> PollockName(cpu)
    ensures Classify(cpu, sig).codename == Dali <==> !PollockName(cpu)
  {
  }

  /** Family 25 model 97 is Dragon Range exactly for HX parts, and Raphael
      otherwise. */
  lemma DragonRangeIff(cpu: string, sig: Signature.CpuSignature)
    requires cpu != "Intel" && sig.family == 25 && sig.model == 97
    ensures Classify(cpu, sig).codename == DragonRange <==> Contains(cpu, "HX")
    ensures Classify(cpu, sig).codename == Raphael <==> !Contains(cpu, "HX")
  {
  }

  /** Family 26 is Strix Point exactly for model 32 and Granite Ridge for
      every other model. */
  lemma StrixPointIff(cpu: string, sig: Signature.CpuSignature)
    requires cpu != "Intel" && sig.family == 26
    ensures Classify(cpu, sig).codename == StrixPoint <==> sig.model == 32
    ensures Classify(cpu, sig).codename == GraniteRidge <==> sig.model != 32
  {
  }

  /** The type is `Unknown` exactly for a non-Intel name outside families
      23, 25 and 26, and `Intel` exactly for the name `Intel`. */
  lemma {:induction false} TypeUnknownIff(cpu: string, sig: Signature.CpuSignature)
    ensures TypeOf(Classify(cpu, sig)) == UnknownCpu <==> cpu != "Intel" && sig.family !in {23, 25, 26}
    ensures TypeOf(Classify(cpu, sig)) == IntelCpu <==> cpu == "Intel"
  {
    var c := Classify(cpu, sig);
    if cpu != "Intel" && sig.family in {23, 25, 26} {
      assert sig.family in Bands;
      assert c.arch != UnknownArch;
    }
  }

  /** The type is `Amd_Desktop_Cpu` exactly for the six desktop codenames,
      and `Amd_Apu` for every other codename of families 23, 25 and 26,
      the `Unknown` codename of an unlisted model included. */
  lemma {:induction false} TypeDesktopApuIff(cpu: string, sig: Signature.CpuSignature)
    ensures TypeOf(Classify(cpu, sig)) == DesktopCpu <==> Classify(cpu, sig).codename in DesktopCodenames
    ensures TypeOf(Classify(cpu, sig)) == Apu <==>
      cpu != "Intel" && sig.family in {23, 25, 26} && Classify(cpu, sig).codename !in DesktopCodenames
  {
    TypeUnknownIff(cpu, sig);
  }

  /** An unlisted family-23 model keeps the Zen 1 - Zen 2 band with
      codename `Unknown` and is typed as an APU. */
  lemma UnlistedModelIsApu(cpu: string, sig: Signature.CpuSignature)
    requires cpu != "Intel"
    requires sig.family == 23 && sig.model != 32 && sig.model !in Zen1To2Models
    ensures Classify(cpu, sig) == Classification(Zen1To2, Unknown)
    ensures TypeOf(Classify(cpu, sig)) == Apu
  {
    ClassifyZen1To2(cpu, sig);
  }

  /** A signature in the rendered shape `Family f, Model m, Stepping s`
      is classified by its three numbers. */
  lemma GetCodenameRendered(cpu: string, prefix: seq<string>, sig: Signature.CpuSignature, suffix: seq<string>)
    requires forall i :: 0 <= i < |prefix| ==> Signature.PlainWord(prefix[i])
    requires forall i :: 0 <= i < |suffix| ==> ' ' !in suffix[i]
    ensures GetCodename(cpu, Signature.Render(prefix, sig, suffix))
      == Success((Classify(cpu, sig), TypeOf(Classify(cpu, sig))))
  {
    Signature.ParseRender(prefix, sig, suffix);
  }
}
