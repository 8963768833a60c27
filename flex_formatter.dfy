/**
 * The application's session state (`FlexFormatter`): the template registry,
 * the selected template, the selected `.mis` file, and the run that formats
 * the name, relabels the sequence and names the output file.  Widgets,
 * dialogs and file I/O are not modelled: the dialogs' answers, the form's
 * entry texts, the clock's date stamp and the parsed document are inputs.
 */
module FlexFormatterApp {
  import opened Wrappers
  import opened NameFormatter
  import opened RegionRelabeler
  import opened TemplateRegistry

  /** Where `run_button` writes: `fileName` in the folder holding `besideFile`. */
  datatype OutputTarget = OutputTarget(besideFile: string, fileName: string)

  datatype RunOutcome =
    | NoMisSelected                      // the "Please select a .mis file" error box
    | FormatFailed(error: FormatError)   // `format_template_str` raised
    | ParseFailed                        // `etree.parse` raised: nothing is written
    | WriteFailed(target: OutputTarget)  // `write_mis` raised
    | Written(target: OutputTarget)      // the relabelled sequence went to `target`

  /**
   * `format_template_str(template)`: a KeyError for a name the registry
   * lacks, else the template's kinds and separators applied to the entries.
   */
  function FormatFor(registry: map<string, Template>, templateName: string, timeStamp: string,
                     entryStrs: seq<string>): (r: Result<string, FormatError>)
    ensures r == Failure(UnknownTemplate(templateName)) <==> templateName !in registry
    ensures (templateName in registry && |entryStrs| == |registry[templateName].labels|
             && Formattable(registry[templateName])) ==> r.Success?
  {
    if templateName !in registry then Failure(UnknownTemplate(templateName))
    else FormatName(timeStamp, entryStrs, registry[templateName].inputType, registry[templateName].separators)
  }

  /** A built-in template formats any form filled in for it. */
  lemma BuiltinFormatsEveryForm(templateName: string, timeStamp: string, entryStrs: seq<string>)
    requires templateName in Builtins()
    requires |entryStrs| == |Builtins()[templateName].labels|
    ensures FormatFor(Builtins(), templateName, timeStamp, entryStrs).Success?
  {
  }

  class FlexFormatter {
    /** `self.data_template`: template name to template. */
    var dataTemplate: map<string, Template>
    /** `self.template.get()`: the name chosen in the drop-down, "" before any choice. */
    var template: string
    /** `self.file_path_mis`: None while the attribute has not been set. */
    var filePathMis: Option<string>

    ghost predicate Valid()
      reads this
    {
      && (forall name :: name in dataTemplate ==> EntriesMatchLabels(dataTemplate[name]))
      && (template == "" || template in dataTemplate)
    }

    /** `__init__`: the two built-ins, no template chosen, no file chosen. */
    constructor ()
      ensures Valid()
      ensures dataTemplate == Builtins() && template == "" && filePathMis == None
    {
      dataTemplate := Builtins();
      template := "";
      filePathMis := None;
    }

    /** `mis_button`: records the path the file dialog returned (possibly ""). */
    method MisButton(path: string)
      requires Valid()
      modifies this`filePathMis
      ensures Valid() && filePathMis == Some(path)
    {
      filePathMis := Some(path);
    }

    /** Choosing a template in the drop-down, which offers the registry's names only. */
    method SelectTemplate(name: string)
      requires Valid() && name in dataTemplate
      modifies this`template
      ensures Valid() && template == name
    {
      template := name;
    }

    /**
     * `load_template` once the YAML is parsed: the declaration is merged in
     * by name with empty default entries; the choice in the drop-down is
     * kept.
     */
    method LoadTemplate(decl: TemplateDecl)
      requires Valid()
      modifies this`dataTemplate
      ensures Valid()
      ensures dataTemplate == Merge(old(dataTemplate), decl)
    {
      MergeKeepsEntriesMatchingLabels(dataTemplate, decl);
      var entries := seq(|decl.labels|, _ => "");
      var updateTemplate := map[decl.templateName := Template(decl.labels, entries, decl.inputType, decl.separators)];
      dataTemplate := dataTemplate + updateTemplate;
    }

    /** `format_template_str`: `entryStrs` are the texts of the form's entries. */
    method FormatTemplateStr(templateName: string, timeStamp: string, entryStrs: seq<string>)
      returns (r: Result<string, FormatError>)
      ensures r == FormatFor(dataTemplate, templateName, timeStamp, entryStrs)
    {
      if templateName !in dataTemplate {
        return Failure(UnknownTemplate(templateName));
      }
      var t := dataTemplate[templateName];
      r := FormatTemplate(timeStamp, entryStrs, t.inputType, t.separators);
    }

    /**
     * `run_button`: without a selected file it reports the error and stops.
     * Otherwise it formats the name; then `format_mis` parses the selected
     * file (`mis` is the parsed root's children, None when parsing raises),
     * relabels its `Area` children, and `write_mis` writes it to
     * `<name>.mis` beside the selected file (`writeSucceeds` says whether
     * that write goes through).
     */
    method RunButton(timeStamp: string, entryStrs: seq<string>, mis: Option<array<Element>>,
                     writeSucceeds: bool)
      returns (outcome: RunOutcome)
      requires Valid()
      requires filePathMis == Some("") ==> mis == None   // a cancelled dialog's "" never parses
      modifies if mis.Some? then {mis.value} else {}
      ensures filePathMis == None ==> outcome == NoMisSelected
      ensures filePathMis != None ==>
                match FormatFor(dataTemplate, template, timeStamp, entryStrs)
                case Failure(e) => outcome == FormatFailed(e)
                case Success(name) =>
                  var target := OutputTarget(filePathMis.value, name + ".mis");
                  match mis
                  case None => outcome == ParseFailed
                  case Some(root) =>
                    && root[..] == Relabel(old(root[..]), name)
                    && outcome == if writeSucceeds then Written(target) else WriteFailed(target)
      ensures outcome.NoMisSelected? || outcome.FormatFailed? ==>
                mis == None || mis.value[..] == old(mis.value[..])
      ensures template != "" ==> !outcome.FormatFailed? || !outcome.error.UnknownTemplate?
    {
      if filePathMis == None {
        return NoMisSelected;
      }
      var formatted := FormatTemplateStr(template, timeStamp, entryStrs);
      match formatted
      case Failure(e) =>
        outcome := FormatFailed(e);
      case Success(fileNameStr) =>
        match mis
        case None =>
          outcome := ParseFailed;
        case Some(root) =>
          FormatMis(root, fileNameStr);
          var misOut := OutputTarget(filePathMis.value, fileNameStr + ".mis");
          outcome := if writeSucceeds then Written(misOut) else WriteFailed(misOut);
    }
  }
}
