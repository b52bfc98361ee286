/** The four-way state of one file and the decision engine that classifies it
    (src/chezmerge/logic.py). Everything here is pure. */
module Logic {

  /** The closed set of merge scenarios. */
  datatype MergeScenario =
    | AlreadySynced       // ours == theirs
    | AutoUpdate          // ours == base, theirs != base
    | AutoKeep            // ours != base, theirs == base
    | Conflict            // ours != base, theirs != base
    | AutoMergeable       // a conflict the three-way merge resolved
    | TemplateDivergence  // a template whose rendering differs from upstream

  /** One file's text at one provenance point. */
  datatype FileState = FileState(content: string, path: string, isTemplate: bool)

  /** The complete merge state of a single file. */
  datatype MergeItem = MergeItem(
    path: string,
    base: FileState,
    theirs: FileState,
    ours: FileState,
    template: FileState,
    scenario: MergeScenario)

  /** A FileState built without the template flag: the flag defaults to false. */
  function NewFileState(content: string, path: string): (f: FileState)
    ensures f.content == content && f.path == path && !f.isTemplate
  {
    FileState(content, path, false)
  }

  /** A MergeItem built without a scenario: the scenario defaults to Conflict. */
  function NewMergeItem(path: string, base: FileState, theirs: FileState, ours: FileState, template: FileState): (m: MergeItem)
    ensures m.scenario == Conflict
    ensures m.path == path && m.base == base && m.theirs == theirs && m.ours == ours && m.template == template
  {
    MergeItem(path, base, theirs, ours, template, Conflict)
  }

  /** The decision engine. The postconditions characterise every tag by the
      equality pattern of the contents alone, across both branches of the body. */
  function Analyze(base: FileState, theirs: FileState, ours: FileState, template: FileState): (r: MergeScenario)
    // the engine never produces the upgraded tag itself
    ensures r != AutoMergeable
    // identical local and upstream content is in sync, whatever the template flag
    ensures r == AlreadySynced <==> ours.content == theirs.content
    ensures r == TemplateDivergence <==> template.isTemplate && ours.content != theirs.content
    ensures r == AutoUpdate <==>
      !template.isTemplate && ours.content == base.content && theirs.content != base.content
    ensures r == AutoKeep <==>
      !template.isTemplate && ours.content != base.content && theirs.content == base.content
    // a raw file conflicts exactly when the three contents are pairwise different
    ensures r == Conflict <==>
      !template.isTemplate && ours.content != theirs.content
      && ours.content != base.content && theirs.content != base.content
  {
    if template.isTemplate then
      if ours.content == theirs.content then AlreadySynced else TemplateDivergence
    else if ours.content == theirs.content then AlreadySynced
    else if ours.content == base.content && theirs.content != base.content then AutoUpdate
    else if ours.content != base.content && theirs.content == base.content then AutoKeep
    else Conflict
  }

  /** The classification reads only the three contents and the template's flag:
      paths and the other flags never influence it. */
  lemma AnalyzeIgnoresPathsAndFlags(
    base: FileState, theirs: FileState, ours: FileState, template: FileState,
    base': FileState, theirs': FileState, ours': FileState, template': FileState)
    requires base.content == base'.content && theirs.content == theirs'.content
    requires ours.content == ours'.content && template.isTemplate == template'.isTemplate
    ensures Analyze(base, theirs, ours, template) == Analyze(base', theirs', ours', template')
  {
  }

  /** A template whose rendering differs from upstream goes to review whatever
      the base is. */
  lemma TemplateDivergenceIgnoresBase(base: FileState, base': FileState, theirs: FileState, ours: FileState, template: FileState)
    requires template.isTemplate
    ensures Analyze(base, theirs, ours, template) == Analyze(base', theirs, ours, template)
    ensures Analyze(base, theirs, ours, template) in {AlreadySynced, TemplateDivergence}
  {
  }

  /** Exactly one side changed: the result is an automatic resolution, never a conflict. */
  lemma OneSidedChangeIsAutomatic(base: FileState, theirs: FileState, ours: FileState, template: FileState)
    requires !template.isTemplate
    requires (ours.content != base.content) != (theirs.content != base.content)
    ensures Analyze(base, theirs, ours, template) ==
      if ours.content == base.content then AutoUpdate else AutoKeep
  {
  }

  /** Two examples on raw files: only upstream changed, then only the local
      side changed. */
  lemma AnalyzeExamples()
    ensures Analyze(NewFileState("x=1", "f"), NewFileState("x=2", "f"), NewFileState("x=1", "f"),
                    NewFileState("x=1", "f")) == AutoUpdate
    ensures Analyze(NewFileState("x=1", "f"), NewFileState("x=1", "f"), NewFileState("x=9", "f"),
                    NewFileState("x=9", "f")) == AutoKeep
  {
  }
}
