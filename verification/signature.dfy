/** The processor signature reported by the hardware inventory, for example
    `Family 25, Model 97, Stepping 1`, and how the program reads the three
    numbers out of it (macOS/UXTU4Unix.py, `get_codename`). */
module Signature {
  import opened Results
  import opened Lists
  import opened Strings
  import opened PyInt

  datatype Label = Family | Model | Stepping

  function LabelWord(l: Label): string {
    match l
    case Family => "Family"
    case Model => "Model"
    case Stepping => "Stepping"
  }

  datatype CpuSignature = CpuSignature(family: int, model: int, stepping: int)

  /** The exception the program raises: a label that is not a word of the
      signature (`ValueError` from `list.index`), a label that is the last
      word (`IndexError`), or a value `int` refuses (`ValueError`). */
  datatype SignatureError =
    | MissingLabel(field: Label)
    | MissingValue(field: Label)
    | NotAnInteger(field: Label, token: string)

  /** The number in the word right after position `at`, with all
      trailing commas removed. */
  function FieldValue(words: seq<string>, at: nat, field: Label): (r: Result<int, SignatureError>)
    ensures r.Success? <==> at + 1 < |words| && ParseInt(RStripChar(words[at + 1], ',')).Some?
    ensures r.Success? ==> r.value == ParseInt(RStripChar(words[at + 1], ',')).value
    ensures r.Failure? ==> r.error.field == field
    ensures r.Failure? ==> (r.error.MissingValue? <==> at + 1 >= |words|)
    ensures r.Failure? && !r.error.MissingValue? ==> r.error == NotAnInteger(field, words[at + 1])
  {
    if at + 1 >= |words| then Failure(MissingValue(field))
    else
      match ParseInt(RStripChar(words[at + 1], ','))
      case Some(v) => Success(v)
      case None => Failure(NotAnInteger(field, words[at + 1]))
  }

  /** Looks up the first word equal to each label (all three lookups
      happen before any number is read), then reads the family, the model
      and the stepping, in that order. */
  function ParseWords(words: seq<string>): (r: Result<CpuSignature, SignatureError>)
    ensures r.Success? ==> "Family" in words && "Model" in words && "Stepping" in words
    ensures r.Failure? && r.error.MissingLabel? ==> LabelWord(r.error.field) !in words
    ensures r.Failure? && r.error.MissingValue? ==> LabelWord(r.error.field) in words
    ensures r.Failure? && r.error.NotAnInteger? ==> ParseInt(RStripChar(r.error.token, ',')).None?
  {
    var f := IndexOf(words, "Family");
    var m := IndexOf(words, "Model");
    var s := IndexOf(words, "Stepping");
    if f.None? then Failure(MissingLabel(Family))
    else if m.None? then Failure(MissingLabel(Model))
    else if s.None? then Failure(MissingLabel(Stepping))
    else
      var family := FieldValue(words, f.value, Family);
      var model := FieldValue(words, m.value, Model);
      var stepping := FieldValue(words, s.value, Stepping);
      if family.Failure? then Failure(family.error)
      else if model.Failure? then Failure(model.error)
      else if stepping.Failure? then Failure(stepping.error)
      else Success(CpuSignature(family.value, model.value, stepping.value))
  }

  /** The signature text is split on single spaces and its words read. */
  function Parse(sig: string): Result<CpuSignature, SignatureError> {
    ParseWords(SplitOn(sig, ' '))
  }

  /** A success carries the numbers after the first occurrence of each
      label, as the program reads them. */
  lemma ParseValues(words: seq<string>)
    ensures var r := ParseWords(words);
      r.Success? ==>
        && FieldValue(words, IndexOf(words, "Family").value, Family) == Success(r.value.family)
        && FieldValue(words, IndexOf(words, "Model").value, Model) == Success(r.value.model)
        && FieldValue(words, IndexOf(words, "Stepping").value, Stepping) == Success(r.value.stepping)
  {
    var f := IndexOf(words, "Family");
    var m := IndexOf(words, "Model");
    var s := IndexOf(words, "Stepping");
    if f.Some? && m.Some? && s.Some? {
      var family := FieldValue(words, f.value, Family);
      var model := FieldValue(words, m.value, Model);
      var stepping := FieldValue(words, s.value, Stepping);
      if family.Failure? {
        assert ParseWords(words) == Failure(family.error);
      } else if model.Failure? {
        assert ParseWords(words) == Failure(model.error);
      } else if stepping.Failure? {
        assert ParseWords(words) == Failure(stepping.error);
      } else {
        assert ParseWords(words) == Success(CpuSignature(family.value, model.value, stepping.value));
      }
    }
  }

  /** A missing value means the label (first occurrence) is the last word,
      where the program's `words[index + 1]` raises `IndexError`. */
  lemma ParseMissingValue(words: seq<string>)
    ensures var r := ParseWords(words);
      r.Failure? && r.error.MissingValue? ==>
        IndexOf(words, LabelWord(r.error.field)).Some? && IndexOf(words, LabelWord(r.error.field)).value + 1 == |words|
  {
    var f := IndexOf(words, "Family");
    var m := IndexOf(words, "Model");
    var s := IndexOf(words, "Stepping");
    if f.Some? && m.Some? && s.Some? {
      var family := FieldValue(words, f.value, Family);
      var model := FieldValue(words, m.value, Model);
      var stepping := FieldValue(words, s.value, Stepping);
      if family.Failure? {
        assert ParseWords(words) == Failure(family.error);
      } else if model.Failure? {
        assert ParseWords(words) == Failure(model.error);
      } else if stepping.Failure? {
        assert ParseWords(words) == Failure(stepping.error);
      } else {
        assert ParseWords(words) == Success(CpuSignature(family.value, model.value, stepping.value));
      }
    }
  }

  /** A refused token is the word right after the label's first
      occurrence. */
  lemma ParseRefusedToken(words: seq<string>)
    ensures var r := ParseWords(words);
      r.Failure? && r.error.NotAnInteger? ==>
        && IndexOf(words, LabelWord(r.error.field)).Some?
        && IndexOf(words, LabelWord(r.error.field)).value + 1 < |words|
        && r.error.token == words[IndexOf(words, LabelWord(r.error.field)).value + 1]
  {
    var f := IndexOf(words, "Family");
    var m := IndexOf(words, "Model");
    var s := IndexOf(words, "Stepping");
    if f.Some? && m.Some? && s.Some? {
      var family := FieldValue(words, f.value, Family);
      var model := FieldValue(words, m.value, Model);
      var stepping := FieldValue(words, s.value, Stepping);
      if family.Failure? {
        assert ParseWords(words) == Failure(family.error);
        if family.error.NotAnInteger? {
          assert family.error.token == words[f.value + 1];
        }
      } else if model.Failure? {
        assert ParseWords(words) == Failure(model.error);
        if model.error.NotAnInteger? {
          assert model.error.token == words[m.value + 1];
        }
      } else if stepping.Failure? {
        assert ParseWords(words) == Failure(stepping.error);
        if stepping.error.NotAnInteger? {
          assert stepping.error.token == words[s.value + 1];
        }
      } else {
        assert ParseWords(words) == Success(CpuSignature(family.value, model.value, stepping.value));
      }
    }
  }

  /** A word the signature may carry before the labelled fields. */
  predicate PlainWord(w: string) {
    ' ' !in w && w != "Family" && w != "Model" && w != "Stepping"
  }

  /** The words of a signature carrying the three numbers, after `prefix`
      words and followed by `suffix` words. */
  function Words(prefix: seq<string>, sig: CpuSignature, suffix: seq<string>): seq<string> {
    prefix + ["Family", IntToText(sig.family) + ",", "Model", IntToText(sig.model) + ",",
              "Stepping", IntToText(sig.stepping)] + suffix
  }

  /** The signature text: `... Family f, Model m, Stepping s ...`. */
  function Render(prefix: seq<string>, sig: CpuSignature, suffix: seq<string>): string {
    Join(Words(prefix, sig, suffix), " ")
  }

  lemma TextHasNoSpace(n: int)
    ensures ' ' !in IntToText(n) && ' ' !in IntToText(n) + ","
  {
  }

  lemma TextIsNotLabel(n: int)
    ensures IntToText(n) + "," != "Model" && IntToText(n) + "," != "Stepping"
    ensures IntToText(n) != "Stepping"
  {
    var t := IntToText(n);
    assert (t + ",")[|t|] == ',';
    assert "Stepping"[7] == 'g';
    assert "Model"[4] == 'l';
  }

  lemma StripCommaText(n: int)
    ensures RStripChar(IntToText(n) + ",", ',') == IntToText(n)
    ensures RStripChar(IntToText(n), ',') == IntToText(n)
  {
    var t := IntToText(n);
    assert (t + ",")[..|t|] == t;
  }

  lemma RenderSplits(prefix: seq<string>, sig: CpuSignature, suffix: seq<string>)
    requires forall i :: 0 <= i < |prefix| ==> PlainWord(prefix[i])
    requires forall i :: 0 <= i < |suffix| ==> ' ' !in suffix[i]
    ensures SplitOn(Render(prefix, sig, suffix), ' ') == Words(prefix, sig, suffix)
  {
    var ws := Words(prefix, sig, suffix);
    var p := |prefix|;
    TextHasNoSpace(sig.family);
    TextHasNoSpace(sig.model);
    TextHasNoSpace(sig.stepping);
    forall i | 0 <= i < |ws|
      ensures ' ' !in ws[i]
    {
      if i < p {
        assert ws[i] == prefix[i];
      } else if i >= p + 6 {
        assert ws[i] == suffix[i - p - 6];
      }
    }
    SplitOnJoin(ws, ' ');
  }

  /** An index holding `x` with no `x` before it is what `list.index`
      returns. */
  lemma IndexOfAt(ws: seq<string>, x: string, k: nat)
    requires k < |ws| && ws[k] == x
    requires forall j :: 0 <= j < k ==> ws[j] != x
    ensures IndexOf(ws, x) == Some(k)
  {
  }

  lemma RenderLabels(prefix: seq<string>, sig: CpuSignature, suffix: seq<string>)
    requires forall i :: 0 <= i < |prefix| ==> PlainWord(prefix[i])
    ensures IndexOf(Words(prefix, sig, suffix), "Family") == Some(|prefix|)
    ensures IndexOf(Words(prefix, sig, suffix), "Model") == Some(|prefix| + 2)
    ensures IndexOf(Words(prefix, sig, suffix), "Stepping") == Some(|prefix| + 4)
  {
    var ws := Words(prefix, sig, suffix);
    var p := |prefix|;
    TextIsNotLabel(sig.family);
    TextIsNotLabel(sig.model);
    forall j | 0 <= j < p + 4
      ensures ws[j] != "Stepping"
      ensures j < p + 2 ==> ws[j] != "Model"
      ensures j < p ==> ws[j] != "Family"
    {
      if j < p {
        assert ws[j] == prefix[j];
      } else if j == p {
        assert ws[j] == "Family";
      } else if j == p + 1 {
        assert ws[j] == IntToText(sig.family) + ",";
      } else if j == p + 2 {
        assert ws[j] == "Model";
      } else {
        assert ws[j] == IntToText(sig.model) + ",";
      }
    }
    IndexOfAt(ws, "Family", p);
    IndexOfAt(ws, "Model", p + 2);
    IndexOfAt(ws, "Stepping", p + 4);
  }

  lemma RenderFields(prefix: seq<string>, sig: CpuSignature, suffix: seq<string>)
    ensures FieldValue(Words(prefix, sig, suffix), |prefix|, Family) == Success(sig.family)
    ensures FieldValue(Words(prefix, sig, suffix), |prefix| + 2, Model) == Success(sig.model)
    ensures FieldValue(Words(prefix, sig, suffix), |prefix| + 4, Stepping) == Success(sig.stepping)
  {
    var ws := Words(prefix, sig, suffix);
    var p := |prefix|;
    assert ws[p + 1] == IntToText(sig.family) + ",";
    assert ws[p + 3] == IntToText(sig.model) + ",";
    assert ws[p + 5] == IntToText(sig.stepping);
    StripCommaText(sig.family);
    StripCommaText(sig.model);
    StripCommaText(sig.stepping);
    ParseIntToText(sig.family);
    ParseIntToText(sig.model);
    ParseIntToText(sig.stepping);
  }

  /** Reading back a rendered signature gives its three numbers, whatever
      plain words come before and whatever words come after: the first
      occurrence of each label wins. */
  lemma ParseRender(prefix: seq<string>, sig: CpuSignature, suffix: seq<string>)
    requires forall i :: 0 <= i < |prefix| ==> PlainWord(prefix[i])
    requires forall i :: 0 <= i < |suffix| ==> ' ' !in suffix[i]
    ensures Parse(Render(prefix, sig, suffix)) == Success(sig)
  {
    RenderSplits(prefix, sig, suffix);
    RenderLabels(prefix, sig, suffix);
    RenderFields(prefix, sig, suffix);
  }

  /** The signature is split on single spaces, so a doubled space after a
      label leaves an empty word where the number should be. */
  lemma {:induction false} DoubleSpaceRefused(prefix: seq<string>, rest: seq<string>)
    requires forall i :: 0 <= i < |prefix| ==> PlainWord(prefix[i])
    requires forall i :: 0 <= i < |rest| ==> ' ' !in rest[i]
    ensures Parse(Join(prefix + ["Family", ""] + rest, " ")).Failure?
  {
    var ws := prefix + ["Family", ""] + rest;
    var p := |prefix|;
    assert forall i :: 0 <= i < |ws| ==> ' ' !in ws[i] by {
      forall i | 0 <= i < |ws|
        ensures ' ' !in ws[i]
      {
        if i < p {
          assert ws[i] == prefix[i];
        } else if i >= p + 2 {
          assert ws[i] == rest[i - p - 2];
        }
      }
    }
    SplitOnJoin(ws, ' ');
    forall j | 0 <= j < p
      ensures ws[j] != "Family"
    {
      assert ws[j] == prefix[j];
    }
    assert ws[p] == "Family" && ws[p + 1] == "";
    IndexOfAt(ws, "Family", p);
    assert RStripChar("", ',') == "";
    assert ParseInt("") == None by {
      assert Strip("") == "";
    }
    assert FieldValue(ws, p, Family).Failure?;
  }
}
