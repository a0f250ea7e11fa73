# UXTU4Unix (macOS edition): processor identification, preset choice and the apply controller

UXTU4Unix tunes the power limits of AMD Ryzen processors. It does this by
running the `ryzenadj` tool with the arguments of a preset. This project
models the decision logic of `macOS/UXTU4Unix.py` in Dafny and proves
properties of it. The modelled logic covers these steps:

- **Reading the processor signature.** The dmidecode signature text
  (`... Family 25, Model 97, Stepping 2`) is split on single spaces. Each
  value follows the first word that equals `Family`, `Model` or
  `Stepping`, with trailing commas stripped, and is read with Python's
  `int()`.
- **Classifying the processor.** The name and the signature give an
  architecture band and a codename. The codename and band then give the
  `Type`: `Amd_Desktop_Cpu`, `Amd_Apu`, `Intel` or `Unknown`.
- **Choosing the preset group (`get_presets`).** The marketing words are
  deleted from the processor name. The type, the codename's place in the
  release-ordered `ryzen_family` list and substring tests on the cleaned
  name then pick one module of `Assets.Presets`.
- **Checking readiness (`check_run`).** The `nvram boot-args` output must
  contain `debug=0x144`. The configured SIP text must occur in the
  `nvram csr-active-config` output once every `%` is deleted.
- **Applying a preset (`apply_smu`).** This step covers:
  - the Intel and not-ready gates;
  - the dynamic-mode label picked from the power reading;
  - the command vector;
  - the reapply loop, which runs once per cycle and sleeps tick by tick
    until a `b` line is read;
  - the restoring of `ReApply`.
- **The apply menu (`preset_menu`).** It reaches `apply_smu` from the saved
  mode, from a premade preset chosen by number, in dynamic mode or with
  custom arguments. It forces and restores `DynamicMode` and `ReApply`
  around the call.
- **The NVRAM edit of the OpenCore configuration (`edit_config`).** It
  appends the debug flag to `boot-args` and writes the SIP bytes to
  `csr-active-config`.

Modules, one per file:

- `Results`: `Option` and `Result`.
- `Lists`: `list.index`.
- `Strings`: Python `in`, `replace`, `split`, `strip`, `rstrip` and `lower`
  on `seq<char>`.
- `PyInt`: `int()` and `str()` on integers.
- `Signature`: signature parsing.
- `Classifier`: codename, architecture and type.
- `Presets`: name cleaning and module selection.
- `Readiness`: `check_run`.
- `ConfigEdit`: the boot-args patch and `binascii` hex handling.
- `Controller`: `apply_smu`.
- `Menu`: `preset_menu`.

The observations the program makes at run time are parameters:

- the outputs of the two `nvram` queries, where `None` means the query
  failed;
- one `pmset` reading per reapply cycle;
- per one-second tick, the stdin line read at that tick, if any;
- the tool path;
- the tick count `int(float(Time))`.

The configuration is a map from the options the program reads, each naming
its section and option, to text. A finite trace
stands for the observations of the endless reapply loop. A trace that ends
without a back request gives the status `StillRunning`.

Where the program's behaviour is surprising, the model keeps it as written:

- The SIP comparison is case-sensitive.
- A machine is never ready when its SIP text contains `%`.
- The type `Unknown` comes from an unknown *family*. An unlisted model of
  family 23 or 25 has codename `Unknown` but is typed `Amd_Apu`.
- In dynamic mode with preset arguments, every cycle runs the same
  command. Only the label shown follows the power reading. With
  `args == "Custom"`, the label itself (`Extreme` or `Eco`) becomes the
  argument list.
- `apply_smu` saves custom settings only when `user_mode` is literally
  `Custom`. It then stores `args` as `CustomArgs`. The menu's own custom
  calls pass `Custom` as `args` and the typed text as `user_mode`.
- An APU typed with codename `Matisse` would get no module. This gap is
  unreachable: classification always types `Matisse` as a desktop
  processor.

## Model

| member | source | states |
|---|---|---|
| Lists.IndexOf | macOS/UXTU4Unix.py:78-80 | `list.index`: the result is the first position holding the value, and there is none exactly when the value is absent (where Python raises `ValueError`) |
| Strings.ContainsIff | macOS/UXTU4Unix.py:679 | the left-to-right scan modelling `sub in s` holds exactly when `sub` occurs at some index of `s` |
| Strings.JoinSplitOn | macOS/UXTU4Unix.py:77 | `split` on one separator loses nothing: joining the pieces back with the separator gives the original text |
| PyInt.ParseIntToText | macOS/UXTU4Unix.py:81-83 | `int()` reads back the decimal text of every integer, negative ones included |
| PyInt.ParseIntRefusesComma | macOS/UXTU4Unix.py:81-83 | a token still ending in a comma is refused by `int()`, which is why the commas are stripped first |
| Signature.FieldValue | macOS/UXTU4Unix.py:78-83 | a value is read exactly when a word follows the label and that word, with trailing commas stripped, is an integer; the error names the field |
| Signature.ParseWords | macOS/UXTU4Unix.py:78-83 | a success means all three labels are words of the signature; a missing-label error names a label that is not a word; a missing-value error names a label that is; a not-an-integer error carries a token `int()` refuses, commas stripped |
| Signature.ParseValues | macOS/UXTU4Unix.py:78-83 | a success carries the values read from the word after the first `Family`, `Model` and `Stepping` words, each in its own field |
| Signature.ParseMissingValue | macOS/UXTU4Unix.py:78-83 | a missing-value error means the first occurrence of that label is the last word, where indexing the next word raises `IndexError` |
| Signature.ParseRefusedToken | macOS/UXTU4Unix.py:78-83 | a not-an-integer error carries exactly the word after the first occurrence of its label |
| Signature.ParseRender | macOS/UXTU4Unix.py:77-83 | any signature rendered as `Family f, Model m, Stepping s` after label-free words parses back to exactly (f, m, s) |
| Signature.DoubleSpaceRefused | macOS/UXTU4Unix.py:77-83 | splitting on single spaces makes a double space after `Family` an empty token, which fails to parse |
| Classifier.IndexIsRank | macOS/UXTU4Unix.py:41-47 | the position of each AMD codename in `ryzen_family` is its release rank, and `Intel` is not in the list |
| Classifier.Classify | macOS/UXTU4Unix.py:85-136 | codename `Intel` exactly for the name `Intel`; otherwise families 23, 25 and 26 give their bands and any other family gives `Unknown`; an unknown band has codename `Unknown` |
| Classifier.ClassifyFollowsTables | macOS/UXTU4Unix.py:91-130 | models that need no name test get the codename of the model tables, and an unlisted model gets `Unknown` within its family's band |
| Classifier.PollockIff | macOS/UXTU4Unix.py:101-102 | family 23 model 32 is Pollock exactly when the name contains `15e`, `15Ce` or `20e`, and Dali otherwise |
| Classifier.DragonRangeIff | macOS/UXTU4Unix.py:123-124 | family 25 model 97 is Dragon Range exactly when the name contains `HX`, and Raphael otherwise |
| Classifier.StrixPointIff | macOS/UXTU4Unix.py:131-136 | family 26 is Strix Point exactly for model 32 and Granite Ridge otherwise |
| Classifier.TypeUnknownIff | macOS/UXTU4Unix.py:144-151 | the type is `Unknown` exactly for a non-Intel name outside families 23, 25 and 26, and `Intel` exactly for the name `Intel` |
| Classifier.TypeDesktopApuIff | macOS/UXTU4Unix.py:144-151 | the type is `Amd_Desktop_Cpu` exactly for the six desktop codenames, and `Amd_Apu` exactly for every other codename of families 23, 25 and 26 |
| Classifier.UnlistedModelIsApu | macOS/UXTU4Unix.py:91-151 | an unlisted family-23 model keeps the Zen 1 - Zen 2 band with codename `Unknown` and is typed `Amd_Apu` |
| Classifier.GetCodename | macOS/UXTU4Unix.py:74-153 | `get_codename` succeeds exactly when the signature parses, even for an Intel name; the stored codename and architecture are the classification of the name and the parsed signature, and the type is the type of that classification |
| Classifier.GetCodenameRendered | macOS/UXTU4Unix.py:74-153 | a signature rendered as `Family f, Model m, Stepping s` gets the classification of its three numbers and that classification's type |
| Presets.RemoveWordsCounts | macOS/UXTU4Unix.py:157 | deleting the marketing words never lengthens the name and keeps every character outside those words, each as often as before |
| Presets.CleanKeepsHint | macOS/UXTU4Unix.py:157 | a suffix hint made of letters outside every marketing word survives the cleaning |
| Presets.Select | macOS/UXTU4Unix.py:159-210 | the `Intel` and `Unknown` types always get `AMDCPU`; only APU and desktop types can fail |
| Presets.SelectIsReference | macOS/UXTU4Unix.py:161-210 | the decision tree equals first-match evaluation of the four ordered rule tables, chosen by release rank against Matisse (APU) or Raphael (desktop) |
| Presets.PostMatissePriority | macOS/UXTU4Unix.py:173-187 | post-Matisse APUs: `U` first, then `HX` before `HS` before `H`, then `GE` |
| Presets.PreMatissePriority | macOS/UXTU4Unix.py:162-172 | pre-Matisse APUs: `U` or `e` first, then `H`, then `GE` |
| Presets.CeIsRedundant | macOS/UXTU4Unix.py:163 | every name containing `Ce` contains `e`, so the `Ce` test never decides |
| Presets.DesktopPriority | macOS/UXTU4Unix.py:188-208 | desktop processors: `E` before `X3D` before `X` with `9` before plain `X`; from Raphael on, `X` without `9` falls to `AMDCPU` |
| Presets.RaphaelIsOnward | macOS/UXTU4Unix.py:188-208 | Raphael itself takes the at-or-after branch |
| Presets.MatisseApuGap | macOS/UXTU4Unix.py:159-212 | an APU with codename `Matisse` sets no module, and loading the module `None` fails |
| Presets.SelectTotal | macOS/UXTU4Unix.py:159-210 | selection succeeds whenever an APU carries neither `Intel` nor `Matisse` and a desktop processor does not carry `Intel` |
| Presets.ResolveTotal | macOS/UXTU4Unix.py:144-210 | every type and codename that classification can produce resolves to a module, whatever the name |
| Presets.PostMatisseHX | macOS/UXTU4Unix.py:173-177 | a post-Matisse APU such as Dragon Range, named with `HX` and without `U`, gets `AMDAPUPostMatisse_HX` |
| Readiness.Ready | macOS/UXTU4Unix.py:674-687 | ready only if the boot-args query succeeds and shows the flag; in that case, and when the csr query succeeds, ready exactly when the SIP text occurs in the csr output with `%` deleted; ready never holds for a SIP text containing `%` |
| Readiness.ReadyWhenShown | macOS/UXTU4Unix.py:679-684 | with the flag present, a csr output showing the SIP text verbatim makes the machine ready |
| Readiness.PercentIgnored | macOS/UXTU4Unix.py:684 | inserting a `%` anywhere in the csr output never changes the verdict |
| ConfigEdit.PatchBootArgs | macOS/UXTU4Unix.py:566-569 | absent boot-args stay absent; boot-args already holding the flag are unchanged; otherwise the result is the original text followed by a space and `debug=0x144`; the result always contains the flag |
| ConfigEdit.PatchIdempotent | macOS/UXTU4Unix.py:566-569 | patching twice is patching once |
| ConfigEdit.PatchMakesReady | macOS/UXTU4Unix.py:566-569 | boot-args output showing the patched value passes the flag test, and with a csr output showing the SIP text the machine is ready |
| ConfigEdit.UnhexlifyHexlify | macOS/UXTU4Unix.py:571 | every byte string written as hex reads back as itself |
| ConfigEdit.HexlifyUnhexlify | macOS/UXTU4Unix.py:571 | valid hex text read as bytes and written back gives the text in lower case |
| ConfigEdit.EditConfig | macOS/UXTU4Unix.py:559-575 | the edit fails exactly when the SIP text is not valid hex; a missing NVRAM entry stays missing; otherwise boot-args are patched and the csr value is the SIP bytes |
| ConfigEdit.EditWritesSip | macOS/UXTU4Unix.py:571-572 | the csr value written by a successful edit, hexlified, is the SIP text in lower case |
| ConfigEdit.EditIdempotent | macOS/UXTU4Unix.py:559-575 | editing twice leaves the entries as editing once |
| Controller.DynamicLabel | macOS/UXTU4Unix.py:869-876 | the label is `Extreme` or `Eco`, and `Eco` exactly when the reading shows battery power but not AC power, so AC wins and an unknown reading gives `Extreme` |
| Controller.Command | macOS/UXTU4Unix.py:878-908 | `sudo -S tool` followed by the whitespace split of `args`, or of the label when `args` is `Custom`; every argument is non-empty and has no whitespace |
| Controller.CommandWords | macOS/UXTU4Unix.py:878-881 | arguments joined with spaces come back in the command as the words they were joined from |
| Controller.BackIsLowerStrip | macOS/UXTU4Unix.py:900 | a line is a back request exactly when lower-cased and stripped of whitespace it equals `b`: some leading blanks, then `b` or `B`, then only blanks |
| Controller.FirstBack | macOS/UXTU4Unix.py:896-900 | the tick of the first line that lower-cased and stripped equals `b`, within the cycle's ticks; none exactly when no such line is read in time |
| Controller.Loop | macOS/UXTU4Unix.py:867-902 | the loop ends exactly when some cycle reads a back request; it ends in the first such cycle, after running the tool once per cycle up to it; without one, every cycle of the trace runs |
| Controller.LoopElapsed | macOS/UXTU4Unix.py:896-902 | the loop sleeps a full `Time` for every completed cycle, plus the ticks up to and including the back request |
| Controller.Prepare | macOS/UXTU4Unix.py:852-866 | `ReApply` reads `1` in dynamic mode and as before otherwise; `Mode` and `CustomArgs` become `Custom` and `args` exactly on a custom save and are otherwise unchanged; no other setting changes |
| Controller.Reapply | macOS/UXTU4Unix.py:866-902 | the loop ends cancelled exactly when a cycle reads a back request, with one run per cycle up to it, and then `ReApply` is restored to its entry value; a loop that never ends keeps the prepared settings |
| Controller.ApplySmu | macOS/UXTU4Unix.py:839-917 | a missing `Type` raises; Intel is refused and a machine that is not ready is refused, with no command and the settings untouched; no command runs unless both gates pass; on every return `ReApply` reads as at entry, and while looping it reads `1`; only `ReApply`, `Mode` and `CustomArgs` can change; a single run uses `user_mode` and `Command` |
| Controller.AppliedOnceIff | macOS/UXTU4Unix.py:855-917 | the tool runs once without looping exactly when the gates pass and neither `DynamicMode` nor `ReApply` is `1` |
| Controller.ApplySmuGated | macOS/UXTU4Unix.py:852-917 | past the gates, `apply_smu` loops when the prepared `ReApply` reads `1` and otherwise runs the tool once with `user_mode` |
| Controller.ReapplyRuns | macOS/UXTU4Unix.py:866-902 | the loop's runs are its cycles in order, each with its own label and command; it is cancelled exactly when some cycle reads a back request, and then the last run is the first such cycle's |
| Controller.LoopedRuns | macOS/UXTU4Unix.py:852-902 | a call that ends looping has passed both gates, and its result is the reapply loop over the prepared settings, restoring the `ReApply` read at entry |
| Controller.DynamicKeepsArgs | macOS/UXTU4Unix.py:869-881 | in dynamic mode with preset arguments, every cycle runs `args` split on whitespace, and only the label shown follows the power reading |
| Controller.PowerReadingIrrelevant | macOS/UXTU4Unix.py:869-881 | for arguments other than `Custom`, traces that differ only in their power readings give the same commands and the same ending |
| Controller.LoopSameInputs | macOS/UXTU4Unix.py:896-902 | the loop's control depends on the stdin lines alone |
| Controller.CustomSave | macOS/UXTU4Unix.py:860-864 | custom settings are saved exactly when saving is on and `user_mode` is `Custom`, and then `CustomArgs` receives `args` |
| Controller.CustomRunsUserMode | macOS/UXTU4Unix.py:878-906 | with `args == "Custom"` and dynamic mode off, every run shows `user_mode` and splits it into the arguments |
| Controller.ReapplyKeepsUser | macOS/UXTU4Unix.py:901 | leaving the loop puts back `ReApply` alone, keeping the saved `Mode` and `CustomArgs` |
| Menu.Lookup | macOS/UXTU4Unix.py:794-795 | a catalogue lookup finds a preset exactly when its name is listed, and returns that entry's arguments |
| Menu.Restore | macOS/UXTU4Unix.py:812-829 | once `apply_smu` has returned, the key reads the saved value and no other setting changes; a loop that never returns restores nothing; status, runs and elapsed time are kept |
| Menu.LoadDynamic | macOS/UXTU4Unix.py:823-829 | dynamic mode raises a missing-`Balance` error exactly when the catalogue has no `Balance`; otherwise it raises exactly when `Type` is missing, and runs the tool only when the gates pass |
| Menu.DynamicRestores | macOS/UXTU4Unix.py:823-829 | after dynamic mode returns, `DynamicMode` and `ReApply` read as before, and nothing else has changed |
| Menu.DynamicRunsBalance | macOS/UXTU4Unix.py:823-827 | with a known `Type` and a `Balance` preset, dynamic mode returns without raising and never runs just once; every cycle runs the `Balance` arguments and shows the label of its power reading |
| Menu.LoadPremade | macOS/UXTU4Unix.py:806-821 | text that is not a number ends without a run; a typed preset number raises only for a missing `Type`, and the tool runs only when the gates pass |
| Menu.RunPremade | macOS/UXTU4Unix.py:807-816 | a number outside the catalogue runs nothing; a number inside it raises exactly when `Type` is missing, and runs the tool only when the gates pass |
| Menu.PremadeRestores | macOS/UXTU4Unix.py:812-816 | after a premade preset returns, `DynamicMode` and `ReApply` read as before |
| Menu.PremadeNotDynamic | macOS/UXTU4Unix.py:809-815 | with a known `Type`, a premade preset in range returns without raising and never runs in dynamic mode: every run shows its own name and runs its own arguments |
| Menu.PremadeByNumber | macOS/UXTU4Unix.py:806-810 | typing the decimal text of `n` selects the `n`-th preset |
| Menu.LoadSaved | macOS/UXTU4Unix.py:789-800 | a saved `Custom` mode runs `apply_smu` with `Custom` and the saved custom arguments; a listed mode runs its own preset arguments under its own name with saving on; the invalid-config path is taken exactly for an unlisted mode other than `Custom`; both runs raise exactly for a missing `Type` |
| Menu.SavedPresetRuns | macOS/UXTU4Unix.py:794-795 | with dynamic mode off, every run of a saved preset name shows that name and runs that preset's arguments split on whitespace |
| Menu.SavedCustomRuns | macOS/UXTU4Unix.py:791-793 | a saved `Custom` mode with dynamic mode off runs the saved custom arguments split on whitespace |
| Menu.LoadCustom | macOS/UXTU4Unix.py:830-832 | typed custom arguments raise exactly for a missing `Type`; otherwise they run as `apply_smu` with `Custom`, the typed text and saving off |
| Menu.TypedCustomNotSaved | macOS/UXTU4Unix.py:830-832 | typed custom arguments never change the saved `Mode` and `CustomArgs`, whatever was typed |
| Menu.MenuGated | macOS/UXTU4Unix.py:783-837 | whatever is typed, the menu runs the tool only for a non-Intel type on a ready machine, and raises for a missing `Balance` exactly when dynamic mode is chosen without one |

## Left out

- Subprocess, shell and `sudo` plumbing and the password are left out. The
  `nvram` and `pmset` outputs are parameters, and a tool run is recorded as
  its label and command vector.
- Exceptions from the `pmset` call and from the tool run itself are left
  out. `check_run` catches only a failing `nvram` query, which is modelled
  as `None`.
- `select` polling and `time.sleep` become a list of per-tick stdin lines.
  There is no concurrency.
- `int(float(Time))` is taken as a tick count. Float parsing is not
  modelled, and a negative count behaves as zero.
- Configuration-file persistence is left out, including the write
  `apply_smu` makes after a custom save, which can store a forced `ReApply`
  of `1`. So are `check_cfg_integrity` and the plist load and dump around
  the NVRAM edit.
- The `__import__` of the chosen module is left out. The module's contents
  are not part of this model, so the result is the module name, and a
  failed import is the `NoModule` error.
- The two `get_presets()` calls are left out: the one that opens
  `preset_menu` and the one in `apply_smu` after the gates. Both read
  `Info/Family`, `Info/CPU` and `Info/Type` without a fallback, so a
  missing option raises `NoOptionError` there. A codename and type for
  which no module is chosen make the import fail. Neither `Menu` nor
  `Controller.ApplySmu` raises on these paths. The menu takes the preset
  catalogue as a parameter, and `Presets.Select` models the selection
  itself.
- Controller.ApplySmu: raises only for a missing `Type`. The source can
  also raise from its `get_presets()` call, as described above.
- Menu.LoadSaved: raises only for a missing `Type`. The `NoOptionError` from the menu's opening `get_presets()` call is not modelled.
- Menu.LoadPremade: raises only for a missing `Type`. The `NoOptionError` from the menu's opening `get_presets()` call is not modelled.
- Menu.RunPremade: raises only for a missing `Type`. The `NoOptionError` from the menu's opening `get_presets()` call is not modelled.
- Menu.LoadDynamic: raises only for a missing `Type` or a missing `Balance`. The `NoOptionError` from the menu's opening `get_presets()` call is not modelled.
- Menu.LoadCustom: raises only for a missing `Type`. The `NoOptionError` from the menu's opening `get_presets()` call is not modelled.
- `welcome_tutorial` after an invalid saved mode is left out. So are the
  menu's screen output and `Press Enter` prompts, logging and `clear()`.
- Updates, networking, the login item and the other menus are not part of
  the apply path.
- `int()` accepts ASCII digits only here. Python also accepts other
  Unicode decimal digits.
- `lower()` folds ASCII letters only. No non-ASCII character lower-cases
  to `b`, so the back test is unaffected.
- The configuration parser folds option names to lower case. The program
  spells every option the same way, so the model keys by the spelling used.
- Classifier.GetCodename: the codename, architecture and type are stored
  in the configuration by the source, but the model returns them instead.
  The CPU name and signature are parameters, so the `NoOptionError` the
  source raises when `Info/CPU` or `Info/Signature` is missing is not
  modelled.
