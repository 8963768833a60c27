/**
 * The naming templates: the two built-in ones and the merge of a template
 * loaded from a YAML declaration (`load_template`).  Reading the YAML file is
 * not modelled; the parsed declaration is the input.
 */
module TemplateRegistry {
  import opened Wrappers
  import opened NameFormatter

  /** One value of `data_template`: prompts, default entries, kinds, separators. */
  datatype Template = Template(
    labels: seq<string>,
    entries: seq<string>,
    inputType: seq<string>,
    separators: seq<string>)

  /** A parsed template declaration: the keys `load_template` reads. */
  datatype TemplateDecl = TemplateDecl(
    templateName: string,
    labels: seq<string>,
    inputType: seq<string>,
    separators: seq<string>)

  const Biomic := Template(
    [ "Enter HuBMAP ID (VAN0001):",
      "Enter kidney_side (RK/LK):",
      "Enter HuBMAP block ID (1):",
      "Enter HuBMAP sec ID (1):",
      "Enter local ID (108):",
      "Select modality (pos/neg):" ],
    ["", "", "", "", "", ""],
    ["text", "text", "numeric", "numeric", "text", "text"],
    ["-", "-", "-", "-", "-IMS_"])

  const Generic := Template(
    [ "Enter Project Name (myproj1):",
      "Enter sample name (samp01):",
      "Enter section ID (1):",
      "Select modality (pos/neg):" ],
    ["", "", "", ""],
    ["text", "text", "numeric", "text"],
    ["-", "-", "-", "-", "-IMS_"])

  /**
   * The registry as the application starts with it: BIOMIC and generic,
   * both formattable and with one default entry per label.
   */
  function Builtins(): (r: map<string, Template>)
    ensures r.Keys == {"BIOMIC", "generic"}
    ensures r["BIOMIC"] == Biomic && r["generic"] == Generic
    ensures forall name :: name in r ==> Formattable(r[name]) && EntriesMatchLabels(r[name])
  {
    map["BIOMIC" := Biomic, "generic" := Generic]
  }

  /** The form shows one entry per label, pre-filled from `entries`. */
  predicate EntriesMatchLabels(t: Template)
  {
    |t.entries| == |t.labels|
  }

  /**
   * A template whose form can always be formatted: one kind per field and a
   * separator between any two consecutive fields.
   */
  predicate Formattable(t: Template)
  {
    |t.inputType| >= |t.labels| && |t.separators| >= |t.labels| - 1
  }

  /**
   * The registry after `data_template.update(...)` with a loaded declaration:
   * the declared name maps to its labels, kinds and separators with every
   * default entry reset to "", and nothing else changes.
   */
  function Merge(registry: map<string, Template>, decl: TemplateDecl): (r: map<string, Template>)
    ensures r.Keys == registry.Keys + {decl.templateName}
    ensures var t := r[decl.templateName];
            && t.labels == decl.labels
            && t.inputType == decl.inputType
            && t.separators == decl.separators
            && |t.entries| == |decl.labels|
            && forall i :: 0 <= i < |t.entries| ==> t.entries[i] == ""
    ensures forall name :: name in registry && name != decl.templateName ==> r[name] == registry[name]
  {
    var entries := seq(|decl.labels|, _ => "");
    registry[decl.templateName := Template(decl.labels, entries, decl.inputType, decl.separators)]
  }

  /**
   * A merged template is formattable exactly when its declaration supplies
   * enough kinds and separators; merging never breaks another template.
   */
  lemma MergeFormattable(registry: map<string, Template>, decl: TemplateDecl)
    ensures Formattable(Merge(registry, decl)[decl.templateName])
            <==> |decl.inputType| >= |decl.labels| && |decl.separators| >= |decl.labels| - 1
    ensures forall name :: name in registry && name != decl.templateName && Formattable(registry[name]) ==>
              Formattable(Merge(registry, decl)[name])
  {
  }

  /** Merging keeps every template's entry list as long as its label list. */
  lemma MergeKeepsEntriesMatchingLabels(registry: map<string, Template>, decl: TemplateDecl)
    requires forall name :: name in registry ==> EntriesMatchLabels(registry[name])
    ensures forall name :: name in Merge(registry, decl) ==> EntriesMatchLabels(Merge(registry, decl)[name])
  {
  }

  /**
   * The built-ins' shapes: BIOMIC has 6 labels, entries and kinds and 5
   * separators; generic has 4 labels, entries and kinds and 5 separators.
   */
  lemma BuiltinsWellFormed()
    ensures |Biomic.labels| == 6 && |Biomic.entries| == 6 && |Biomic.inputType| == 6 && |Biomic.separators| == 5
    ensures |Generic.labels| == 4 && |Generic.entries| == 4 && |Generic.inputType| == 4 && |Generic.separators| == 5
  {
  }

  /** A formattable template never makes formatting raise, whatever the entries say. */
  lemma FormattableNeverFails(t: Template, timeStamp: string, entryStrs: seq<string>)
    requires Formattable(t) && |entryStrs| == |t.labels|
    ensures FormatName(timeStamp, entryStrs, t.inputType, t.separators).Success?
  {
  }

  /** The BIOMIC fields after `format_number`: the two numeric ones padded. */
  lemma BiomicExampleFields()
    ensures FormatFields(["VAN0001", "LK", "1", "2", "108", "pos"], Biomic.inputType)
            == ["VAN0001", "LK", "001", "002", "108", "pos"]
  {
    assert FormatNumber("1", "numeric") == "001";
    assert FormatNumber("2", "numeric") == "002";
  }

  /** Six fields joined: each separator between its field and the next. */
  lemma JoinedOfSix(a: string, b: string, c: string, d: string, e: string, g: string, seps: seq<string>)
    requires |seps| >= 5
    ensures Joined([a, b, c, d, e, g], seps)
            == a + seps[0] + (b + seps[1] + (c + seps[2] + (d + seps[3] + (e + seps[4] + g))))
  {
    JoinedCons([a, b, c, d, e, g], seps);
    assert [a, b, c, d, e, g][1..] == [b, c, d, e, g];
    JoinedCons([b, c, d, e, g], seps[1..]);
    assert [b, c, d, e, g][1..] == [c, d, e, g] && seps[1..][1..] == seps[2..];
    JoinedCons([c, d, e, g], seps[2..]);
    assert [c, d, e, g][1..] == [d, e, g] && seps[2..][1..] == seps[3..];
    JoinedCons([d, e, g], seps[3..]);
    assert [d, e, g][1..] == [e, g] && seps[3..][1..] == seps[4..];
    JoinedCons([e, g], seps[4..]);
    assert [e, g][1..] == [g];
  }

  /** The BIOMIC separators join the padded example fields. */
  lemma BiomicExampleJoined()
    ensures Joined(["VAN0001", "LK", "001", "002", "108", "pos"], Biomic.separators)
            == "VAN0001" + "-" + ("LK" + "-" + ("001" + "-" + ("002" + "-" + ("108" + "-IMS_" + "pos"))))
  {
    JoinedOfSix("VAN0001", "LK", "001", "002", "108", "pos", Biomic.separators);
  }

  /** A BIOMIC name: numeric fields padded, "-IMS_" before the modality. */
  lemma BiomicExample()
    ensures FormatName("20200625", ["VAN0001", "LK", "1", "2", "108", "pos"], Biomic.inputType, Biomic.separators)
            == Success("20200625" + "_" + ("VAN0001" + "-" + ("LK" + "-" + ("001" + "-" + ("002" + "-" + ("108" + "-IMS_" + "pos"))))))
  {
    BiomicExampleFields();
    BiomicExampleJoined();
  }

  /**
   * The generic template has a fifth separator "-IMS_" for its four fields:
   * only the first three separators, all "-", are ever emitted.
   */
  lemma GenericUsesOnlyDashes(timeStamp: string, entryStrs: seq<string>)
    requires |entryStrs| == |Generic.labels|
    ensures FormatName(timeStamp, entryStrs, Generic.inputType, Generic.separators)
            == FormatName(timeStamp, entryStrs, Generic.inputType, ["-", "-", "-"])
  {
    JoinedIgnoresExtraSeparators(FormatFields(entryStrs, Generic.inputType), Generic.separators, ["-", "-", "-"]);
  }
}
