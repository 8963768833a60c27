# flexformatter, modelled in Dafny

flexformatter is a small desktop tool for a mass-spectrometry imaging lab.
The operator picks a naming template and fills in its form fields, such as
the HuBMAP ID, kidney side, block and section IDs and modality. The tool
then builds an image name from these fields and today's date. It opens a
flexImaging `.mis` acquisition sequence (XML) and renames every `Area`
region in it to `<name>_roi000`, `<name>_roi001`, and so on. The result is
written to `<name>.mis` next to the original file.

This project models the tool's non-GUI behaviour:

- `PyStr` models the Python string operations the tool relies on:
  `str.zfill`, `str()` of a non-negative integer, and `"".join`. It also
  defines the value of a digit string, which is used to prove that ROI names
  are distinct.
- `NameFormatter` models `format_number` and `format_template_str`.
  - `FormatName` is the specification: the stamp, `"_"`, then the
    formatted fields joined by their separators. It returns the
    `IndexError` the code raises when `input_type` or `separators` is too
    short.
  - `FormatTemplate` is the indexed loop of the code, proved equal to
    `FormatName`.
- `RegionRelabeler` models `format_mis`.
  - The children of the document root form an `array<Element>`.
  - `FormatMis` renames the `Area` children in place. It is proved equal to
    the specification `Relabel`.
  - Lemmas prove the resulting names: in order, distinct, with 3-digit
    padding below 1000. They also prove that nothing else changes.
- `TemplateRegistry` holds the template record, the two built-ins
  (`BIOMIC`, `generic`), and `Merge`, the effect of `load_template` on the
  registry.
- `FlexFormatterApp` holds the class `FlexFormatter`. Its fields are the
  registry (`data_template`), the chosen template and the chosen `.mis`
  path. Its methods are `MisButton`, `SelectTemplate`, `LoadTemplate`,
  `FormatTemplateStr` and `RunButton`.

Several inputs are parameters: the date stamp (taken from the clock), the
form's entry texts, the path returned by the file dialog, the parsed YAML
declaration, the parsed XML root children (absent when the file does not
parse) and whether writing the output succeeds.

Three details of the code matter for what is proved:

- The separator of the last field is never emitted
  (flexformatter.py:225-229). Fields `VAN0001` (text) and `7` (numeric)
  with separators `-` and `-IMS_` give `20200625_VAN0001-007`. This is
  `NameFormatter.TwoFieldExample`.
- There is no check that the entries, kinds and separators have matching
  lengths. Only a short `input_type` or `separators` list raises, as an
  `IndexError`; extra entries in either list are ignored.
- Numeric padding is Python's `zfill`, which puts the zeros after a leading
  `+` or `-`: `"-5"` becomes `"-05"`.

## Model

| member | source | states |
|---|---|---|
| `PyStr.ZFill` | flexformatter.py:209 | `zfill(3)`: the result is at least 3 long; a value of 3 or more characters is unchanged; a shorter one gets exactly the missing `'0'`s, placed after a leading sign if there is one and in front otherwise; the characters of the value keep their order |
| `PyStr.NatToString` | flexformatter.py:24 | `str(idx)` is a non-empty run of decimal digits with no leading zero (except for 0 itself) |
| `PyStr.NatToStringRoundTrip` | flexformatter.py:24 | reading `str(idx)` as decimal gives back `idx` |
| `PyStr.NatToStringLength` | flexformatter.py:24 | `str(idx)` has at most m digits exactly when `idx < 10^m` |
| `PyStr.ZFillKeepsValue` | flexformatter.py:24 | `zfill` of a digit string is a digit string with the same numeric value |
| `PyStr.Join` | flexformatter.py:231-233 | `"".join` of a single part is that part, and the result is empty exactly when every part is empty |
| `PyStr.JoinAppend` | flexformatter.py:231-233 | joining `[stamp, "_"]` extended by a list equals joining each and concatenating, as `input_strs.extend` then `"".join` does |
| `NameFormatter.FormatNumber` | flexformatter.py:207-212 | a kind other than exactly `"numeric"` passes the value through; `"numeric"` leaves a value of 3 or more characters alone and pads a shorter one to length 3 with zeros after any leading sign |
| `NameFormatter.FormatName` | flexformatter.py:214-234 | a formatted name always starts with the stamp followed by `"_"`; the only errors are the `IndexError`s for a missing kind or separator |
| `NameFormatter.JoinInterleaved` | flexformatter.py:223-233 | joining the list field 0, separator 0, field 1, …, field n-1 (field i at position 2i, separator i at 2i+1) gives exactly the joined name |
| `NameFormatter.FormatTemplate` | flexformatter.py:214-234 | the loop's result is the specified name `stamp + "_" + f0 + sep0 + … + f(n-1)`, or the `IndexError` raised for a missing kind or separator |
| `NameFormatter.JoinedSplitAt` | flexformatter.py:224-229 | separator i sits between formatted fields i and i+1: the name splits there into the join of fields 0..i, `sep[i]`, and the join of the rest |
| `NameFormatter.JoinedIgnoresExtraSeparators` | flexformatter.py:222-229 | only separators 0..n-2 are emitted: two separator lists that agree there give the same name |
| `NameFormatter.FormatNameSucceedsIff` | flexformatter.py:217-227 | formatting raises exactly when `len(input_type) < n` (an `IndexError` at index `len(input_type)`) or `len(separators) < n-1` (at index `len(separators)`); there is no other error |
| `NameFormatter.FormatNameNoEntries` | flexformatter.py:215-233 | with zero entries the name is exactly `stamp + "_"` |
| `NameFormatter.FormatNameIgnoresExtras` | flexformatter.py:217-229 | extra kinds and separators are ignored: the name equals the one built from the first n kinds and n-1 separators |
| `NameFormatter.TwoFieldExample` | flexformatter.py:223-233 | fields `VAN0001` (text) and `7` (numeric) with separators `-`, `-IMS_` give `20200625_VAN0001-007`; the last separator is dropped |
| `RegionRelabeler.RoiSuffix` | flexformatter.py:24 | `str(k).zfill(3)` is all digits and reads back as k; it has exactly 3 digits for k < 1000 and is `str(k)` unpadded, 4 or more digits, from 1000 on |
| `RegionRelabeler.RoiName` | flexformatter.py:24 | the ROI name is the base, then `_roi`, then digits whose value is the index |
| `RegionRelabeler.Relabel` | flexformatter.py:23-24 | relabelling keeps the number of children |
| `RegionRelabeler.FormatMis` | flexformatter.py:20-26 | after the loop the root's children are `Relabel` of the old children: the k-th `Area` renamed with index k, every other child as it was |
| `RegionRelabeler.RelabelFrame` | flexformatter.py:23-24 | every child keeps its tag and its children; a non-`Area` child is unchanged; an `Area` child keeps every attribute except `Name` |
| `RegionRelabeler.AreaNamesInOrder` | flexformatter.py:23-24 | after relabelling, the `Name`s of the `Area` children in document order are exactly `base_roi000`, `base_roi001`, …, one per `Area`, whatever they were before |
| `RegionRelabeler.NoAreasUnchanged` | flexformatter.py:23-24 | a root with no `Area` child is left exactly as it was |
| `RegionRelabeler.RoiNameInjective` | flexformatter.py:24 | different indices give different ROI names |
| `RegionRelabeler.RelabelledNamesDistinct` | flexformatter.py:23-24 | after relabelling, no two `Area` children share a `Name` |
| `RegionRelabeler.RelabelIdempotent` | flexformatter.py:23-24 | relabelling the relabelled children with the same base changes nothing |
| `TemplateRegistry.Builtins` | flexformatter.py:67-99 | the initial registry has exactly the keys `BIOMIC` and `generic`; both templates have a kind for every field, a separator between any two fields, and one default entry per label |
| `TemplateRegistry.Merge` | flexformatter.py:173-183 | after the merge, the key set is the old keys plus the declared name; the declared name maps to the declaration's labels, kinds and separators, with one `""` entry per label, overwriting any earlier template of that name; every other name maps to what it mapped to before |
| `TemplateRegistry.MergeFormattable` | flexformatter.py:173-183 | the merged template is formattable exactly when the declaration has at least one kind per label and one separator between labels; other formattable templates stay formattable |
| `TemplateRegistry.MergeKeepsEntriesMatchingLabels` | flexformatter.py:173-183 | if every template has as many entries as labels before the merge, this still holds after it |
| `TemplateRegistry.BuiltinsWellFormed` | flexformatter.py:67-99 | `BIOMIC` has 6 labels, 6 entries, 6 kinds and 5 separators; `generic` has 4, 4, 4 and 5 |
| `TemplateRegistry.FormattableNeverFails` | flexformatter.py:217-227 | a formattable template never raises for a form with one entry per label |
| `TemplateRegistry.BiomicExampleFields` | flexformatter.py:218-220 | with the BIOMIC kinds, `1` and `2` in the block and section fields become `001` and `002`; the text fields pass through |
| `TemplateRegistry.BiomicExampleJoined` | flexformatter.py:223-233 | the BIOMIC separators join those fields as `VAN0001-LK-001-002-108-IMS_pos` |
| `TemplateRegistry.BiomicExample` | flexformatter.py:206-234 | a complete BIOMIC name is `20200625_VAN0001-LK-001-002-108-IMS_pos` |
| `TemplateRegistry.GenericUsesOnlyDashes` | flexformatter.py:88-98 | the generic template's fourth and fifth separators (`-`, `-IMS_`) are never emitted: its names equal those built with the separators `-`, `-`, `-` |
| `FlexFormatterApp.FormatFor` | flexformatter.py:217 | looking up the template raises `KeyError` exactly when the name is not registered; a registered, formattable template with one entry per label always formats |
| `FlexFormatterApp.BuiltinFormatsEveryForm` | flexformatter.py:67-99 | formatting with a built-in template succeeds for any form with one entry per label |
| `FlexFormatterApp.FlexFormatter.constructor` | flexformatter.py:59-100 | the session starts with exactly the two built-ins, no template chosen (`""`) and no file chosen |
| `FlexFormatterApp.FlexFormatter.MisButton` | flexformatter.py:155-161 | the chosen path, even `""` from a cancelled dialog, is recorded; nothing else changes |
| `FlexFormatterApp.FlexFormatter.SelectTemplate` | flexformatter.py:102-107 | choosing a registered template name makes it the current template; nothing else changes |
| `FlexFormatterApp.FlexFormatter.LoadTemplate` | flexformatter.py:163-204 | the registry becomes `Merge` of the old registry and the declaration; the chosen template and file are kept; every template still has one entry per label |
| `FlexFormatterApp.FlexFormatter.FormatTemplateStr` | flexformatter.py:206-234 | the result is a `KeyError` for an unregistered template name, otherwise the specified name for that template's kinds and separators |
| `FlexFormatterApp.FlexFormatter.RunButton` | flexformatter.py:236-249 | with no file chosen, the run reports the error and changes nothing; if formatting raises, nothing is relabelled or written; if the chosen file does not parse (always so for `""`), nothing is written; otherwise the children are relabelled with the formatted name and the output goes to `<name>.mis` beside the chosen file, or the write fails; a chosen template never gives the `KeyError` |

## Left out

- The tkinter GUI (flexformatter.py:44-204) is not modelled: window and
  grid layout, the `OptionMenu` and `StringVar`, building labels and
  entries, and clearing rows. The texts typed into the entries are an input
  list.
- The form is pre-filled with a template's default `entries` through the
  widgets (flexformatter.py:132-136). This is presentation only and is not
  modelled.
- `initialize_ui_from_template` leaves `final_idx` unbound for a template
  with no labels (flexformatter.py:137-139). This is a GUI path and is not
  modelled.
- File dialogs and `messagebox` (flexformatter.py:157-161, 165-168, 242)
  are user I/O. The chosen paths are inputs, and the error box is the
  outcome `NoMisSelected`.
- YAML loading (flexformatter.py:170-171) uses a foreign parser. The
  parsed declaration is the input `TemplateDecl`. A declaration missing one
  of the keys `template_name`, `labels`, `input_type` or `separators`
  raises `KeyError` before the registry changes; that case is not modelled,
  because a `TemplateDecl` always has all four keys. YAML values that are
  not strings are not modelled either: a `TemplateDecl` holds lists of
  strings, so a separator parsed as a number or as `None` (which makes
  `"".join` raise `TypeError`) cannot be expressed.
- lxml parsing, the XPath query and pretty-printed serialisation
  (flexformatter.py:21, 23, 26) are a foreign library. The root's children
  are an array of elements, and the XPath `Area` step becomes an exact
  comparison of the tag with `"Area"`. Comments, processing instructions,
  text and namespaces are not modelled, and neither are bytes or
  indentation.
- FlexFormatterApp.FlexFormatter.RunButton: whether the chosen file reads and parses, and
  whether the output write succeeds, are inputs (`mis`, `writeSucceeds`).
  The model derives only one of them from the path: `""` never parses. A
  failed run is an outcome; the Python exception's type and message are
  not modelled.
- `write_mis` and the `pathlib` join (flexformatter.py:29-31, 248) are
  file I/O. The output is named by `OutputTarget`: the chosen file whose
  folder receives the output, and the output's file name.
- The timestamp comes from `datetime` and `time` (flexformatter.py:214).
  It is the `timeStamp` parameter.
- The debugging `print` of the name (flexformatter.py:246) is not
  modelled.
- `resource_path`, the PyInstaller `_MEIPASS` logic and icon loading
  (flexformatter.py:36-58) are packaging concerns.
