/**
 * The `cortex init` wizard (lib/command/init.js) as a state machine over the
 * caller's `options` object:
 *
 *   inspect directory -> resolve template -> resolve force mode
 *     -> cancelled | collect metadata -> confirm -> aborted | generate
 *
 * Everything the wizard consults from outside is an input: the directory
 * listing, the generator's template and license lists, the profile store,
 * the runtime version, what the generator reports, and every answer the
 * user gives.
 */
module InitWizard {
  import opened Wrappers
  import opened InitDecisions

  /** What the collaborators report during one run. */
  datatype Collaborators = Collaborators(
    listing: Option<seq<string>>,     // fs.readdir of cwd; None when the read fails
    templates: seq<string>,           // generator.availableTemplates()
    licenses: seq<string>,            // generator.availableLicenses()
    profile: map<string, string>,     // profile.get(key); absent keys are undefined
    neuronVersion: string,            // neuron.version()
    generatorError: Option<string>)   // the error the generator calls back with, if any

  /** The user's answers, each consulted only if its prompt is shown. */
  datatype Answers = Answers(
    templateChoice: string,           // pick from the template list
    conflictChoice: string,           // label picked at the conflict prompt
    metadata: map<string, string>,    // the metadata questions' result object
    confirm: bool)                    // answer to "About to write files. Is this ok?"

  /** A prompt shown to the user, with what it was given. */
  datatype Prompt =
    | TemplateList(choices: seq<string>)
    | ConflictList(choices: seq<string>)
    | Metadata(schemasOf: string, licenses: seq<string>, skip: map<string, string>)
    | Confirm(pkg: map<string, string>)

  /** How a run ends. */
  datatype Outcome =
    | Threw            // the readdir error branch throws; the callback is never called
    | CancelledByUser  // callback(null) after the "none" token
    | Aborted          // callback(null) after a declined confirmation
    | Generated(pkg: map<string, string>, options: GenerateOptions, error: Option<string>)
                       // the generator was called; it calls back with `error`

  /** The fields of `options` the wizard reads and writes. */
  datatype OptionsState = OptionsState(
    cwd: string,
    template: string,
    force: Option<string>,
    empty: Option<bool>,
    pkg: Option<map<string, string>>)

  /** A finished run: the final options, the prompts in the order shown, the outcome. */
  datatype Session = Session(state: OptionsState, prompts: seq<Prompt>, outcome: Outcome)

  // ---------------------------------------------------------------------------
  // Specification of a run, step by step as the source chains its callbacks

  /** `run`: inspect the directory, resolve the template, then the force mode. */
  function InitSpec(s: OptionsState, env: Collaborators, ans: Answers): (r: Session) {
    match env.listing
    case None => Session(s, [], Threw)
    case Some(files) =>
      var empty := IsEmpty(files);
      var shown := if TemplatePrompted(s.template, env.templates) then [TemplateList(env.templates)] else [];
      var s1 := s.(empty := Some(empty), template := AskTemplate(s.template, env.templates, ans.templateChoice));
      if empty then RunSpec(s1.(force := Some(Overriding)), env, ans, shown)
      else if Truthy(s1.force) then RunSpec(s1, env, ans, shown)
      else RunSpec(s1.(force := ChoiceToken(ans.conflictChoice)), env, ans, shown + [ConflictList(ConflictChoices)])
  }

  /** `_run`: stop on "none", otherwise `_new`. */
  function RunSpec(s: OptionsState, env: Collaborators, ans: Answers, shown: seq<Prompt>): (r: Session) {
    match Dispatch(s.force)
    case Stop => Session(s, shown, CancelledByUser)
    case CreateNew => NewSpec(s, env, ans, shown)
  }

  /** `_new`, `_confirm_data` and `_generate`. */
  function NewSpec(s: OptionsState, env: Collaborators, ans: Answers, shown: seq<Prompt>): (r: Session) {
    var skip := Skips(env.profile, s.template, env.templates);
    var s1 := s.(pkg := Some(ans.metadata));
    var shown' := shown + [Metadata(s.template, env.licenses, skip), Confirm(ans.metadata)];
    if ans.confirm then
      Session(s1, shown', Generated(ans.metadata, GeneratorOptions(s1.force, s1.cwd, env.neuronVersion, ans.metadata), env.generatorError))
    else
      Session(s1, shown', Aborted)
  }

  // ---------------------------------------------------------------------------
  // The options object, updated in place by the wizard

  class Options {
    var cwd: string
    var template: string
    var force: Option<string>
    var empty: Option<bool>
    var pkg: Option<map<string, string>>

    function State(): (st: OptionsState)
      reads this
    {
      OptionsState(cwd, template, force, empty, pkg)
    }

    /** The options a caller hands to `run`; `empty` and `pkg` start unset. */
    constructor (cwd: string, template: string, force: Option<string>)
      ensures State() == OptionsState(cwd, template, force, None, None)
    {
      this.cwd := cwd;
      this.template := template;
      this.force := force;
      this.empty := None;
      this.pkg := None;
    }

    /** `run`: drives the whole wizard, recording each decision in the fields. */
    method Run(env: Collaborators, ans: Answers) returns (shown: seq<Prompt>, outcome: Outcome)
      modifies this
      ensures Session(State(), shown, outcome) == InitSpec(old(State()), env, ans)
    {
      if env.listing.None? {
        return [], Threw;
      }
      var isEmpty := IsEmpty(env.listing.value);
      empty := Some(isEmpty);
      shown := [];
      if TemplatePrompted(template, env.templates) {
        shown := shown + [TemplateList(env.templates)];
      }
      template := AskTemplate(template, env.templates, ans.templateChoice);
      if isEmpty {
        force := Some(Overriding);
      } else if !Truthy(force) {
        AskAboutForcing(ans.conflictChoice);
        shown := shown + [ConflictList(ConflictChoices)];
      }
      shown, outcome := RunSelected(env, ans, shown);
    }

    /** `_ask_about_forcing`: records the token of the picked conflict label. */
    method AskAboutForcing(answer: string)
      modifies this`force
      ensures force == ChoiceToken(answer)
    {
      force := ChoiceToken(answer);
    }

    /** `_run`: stops on "none", otherwise creates the project. */
    method RunSelected(env: Collaborators, ans: Answers, shown: seq<Prompt>) returns (shown': seq<Prompt>, outcome: Outcome)
      modifies this`pkg
      ensures Session(State(), shown', outcome) == RunSpec(old(State()), env, ans, shown)
    {
      match Dispatch(force)
      case Stop =>
        shown', outcome := shown, CancelledByUser;
      case CreateNew =>
        shown', outcome := New(env, ans, shown);
    }

    /**
     * `_new`: asks the metadata questions with the skip map, stores the
     * answers as `pkg`, and generates only once the user confirms.
     */
    method New(env: Collaborators, ans: Answers, shown: seq<Prompt>) returns (shown': seq<Prompt>, outcome: Outcome)
      modifies this`pkg
      ensures Session(State(), shown', outcome) == NewSpec(old(State()), env, ans, shown)
    {
      var skip := Skipped(env.profile, template, env.templates);
      pkg := Some(ans.metadata);
      shown' := shown + [Metadata(template, env.licenses, skip), Confirm(ans.metadata)];
      if ans.confirm {
        outcome := Generated(ans.metadata, GeneratorOptions(force, cwd, env.neuronVersion, ans.metadata), env.generatorError);
      } else {
        outcome := Aborted;
      }
    }
  }

  // ---------------------------------------------------------------------------
  // Properties of a run

  /** How many times the conflict prompt appears among the prompts shown. */
  function ConflictPrompts(shown: seq<Prompt>): (n: nat) {
    multiset(shown)[ConflictList(ConflictChoices)]
  }

  /** The metadata questions keep every pre-filled field of `skip` as given. */
  predicate KeepsSkipped(metadata: map<string, string>, skip: map<string, string>) {
    forall field :: field in skip ==> field in metadata && metadata[field] == skip[field]
  }

  /**
   * A directory that cannot be listed ends the run in the readdir error
   * branch, which throws before any callback or prompt and leaves the options
   * untouched.
   */
  lemma UnreadableDirectoryThrows(s: OptionsState, env: Collaborators, ans: Answers)
    requires env.listing.None?
    ensures InitSpec(s, env, ans) == Session(s, [], Threw)
  {
  }

  /** The directory counts as empty exactly when its listing has no entry. */
  lemma EmptyFlagRecorded(s: OptionsState, env: Collaborators, ans: Answers)
    requires env.listing.Some?
    ensures InitSpec(s, env, ans).state.empty == Some(env.listing.value == [])
    ensures InitSpec(s, env, ans).outcome != Threw
  {
  }

  /**
   * An empty directory forces "overriding", whatever the caller supplied,
   * and the conflict prompt is never shown.
   */
  lemma EmptyDirectoryForcesOverriding(s: OptionsState, env: Collaborators, ans: Answers)
    requires env.listing == Some([])
    ensures InitSpec(s, env, ans).state.force == Some(Overriding)
    ensures ConflictPrompts(InitSpec(s, env, ans).prompts) == 0
    ensures InitSpec(s, env, ans).outcome != CancelledByUser
  {
  }

  /**
   * In a non-empty directory a force mode supplied by the caller (a truthy
   * `_force`) is kept and the conflict prompt is skipped.
   */
  lemma SuppliedForceKept(s: OptionsState, env: Collaborators, ans: Answers)
    requires env.listing.Some? && env.listing.value != []
    requires Truthy(s.force)
    ensures InitSpec(s, env, ans).state.force == s.force
    ensures ConflictPrompts(InitSpec(s, env, ans).prompts) == 0
  {
  }

  /**
   * In a non-empty directory without a supplied force mode the conflict
   * prompt is shown exactly once, and the force mode becomes the token of
   * the label picked there.
   */
  lemma ConflictPromptShownOnce(s: OptionsState, env: Collaborators, ans: Answers)
    requires env.listing.Some? && env.listing.value != []
    requires !Truthy(s.force)
    ensures ConflictPrompts(InitSpec(s, env, ans).prompts) == 1
    ensures InitSpec(s, env, ans).state.force == ChoiceToken(ans.conflictChoice)
  {
  }

  /**
   * Picking one of the offered labels records "Skipping", "overriding" or
   * "none"; "updating" is never recorded that way.
   */
  lemma OfferedLabelNeverUpdates(s: OptionsState, env: Collaborators, ans: Answers)
    requires env.listing.Some? && env.listing.value != []
    requires !Truthy(s.force)
    requires ans.conflictChoice in ConflictChoices
    ensures InitSpec(s, env, ans).state.force in {Some(Skipping), Some(Overriding), Some(Cancel)}
  {
  }

  /**
   * The template list is shown exactly when more or fewer than one template
   * exists and "default" was requested; the resolved template is the one
   * `_ask_template` decides.
   */
  lemma TemplateResolved(s: OptionsState, env: Collaborators, ans: Answers)
    requires env.listing.Some?
    ensures TemplateList(env.templates) in InitSpec(s, env, ans).prompts <==> TemplatePrompted(s.template, env.templates)
    ensures InitSpec(s, env, ans).state.template == AskTemplate(s.template, env.templates, ans.templateChoice)
  {
  }

  /**
   * A requested name other than "default" is kept, without a prompt, even
   * when the generator does not offer it; it is then not pre-filled.
   */
  lemma RequestedTemplateUnchecked(s: OptionsState, env: Collaborators, ans: Answers)
    requires env.listing.Some? && |env.templates| != 1
    requires s.template != DefaultTemplate && s.template !in env.templates
    ensures InitSpec(s, env, ans).state.template == s.template
    ensures TemplateList(env.templates) !in InitSpec(s, env, ans).prompts
    ensures "template" !in Skips(env.profile, InitSpec(s, env, ans).state.template, env.templates)
  {
  }

  /**
   * With a single template "default", a request for "foo" and an empty
   * directory: the template becomes "default", the force mode "overriding",
   * and neither the template list nor the conflict prompt is shown.
   */
  lemma SingleTemplateEmptyDirectory(cwd: string, force: Option<string>, env: Collaborators, ans: Answers)
    requires env.templates == ["default"] && env.listing == Some([])
    ensures InitSpec(OptionsState(cwd, "foo", force, None, None), env, ans).state.template == "default"
    ensures InitSpec(OptionsState(cwd, "foo", force, None, None), env, ans).state.force == Some(Overriding)
    ensures forall p :: p in InitSpec(OptionsState(cwd, "foo", force, None, None), env, ans).prompts ==>
      p.Metadata? || p.Confirm?
  {
  }

  /**
   * The run is cancelled exactly when the resolved force mode is "none";
   * a cancelled run asks no metadata, leaves `pkg` as it was and never generates.
   */
  lemma CancelSkipsCreation(s: OptionsState, env: Collaborators, ans: Answers)
    requires env.listing.Some?
    ensures InitSpec(s, env, ans).outcome == CancelledByUser <==> InitSpec(s, env, ans).state.force == Some(Cancel)
    ensures InitSpec(s, env, ans).outcome == CancelledByUser ==>
      InitSpec(s, env, ans).state.pkg == s.pkg &&
      forall p :: p in InitSpec(s, env, ans).prompts ==> p.TemplateList? || p.ConflictList?
  {
  }

  /**
   * Every run that is not cancelled or thrown asks the metadata questions
   * and then the confirmation, as its last two prompts; the generator is
   * called exactly when that confirmation is accepted, with the confirmed
   * metadata, and a declined confirmation aborts.
   */
  lemma GenerationOnlyAfterConfirmation(s: OptionsState, env: Collaborators, ans: Answers)
    ensures var r := InitSpec(s, env, ans);
      r.outcome.Generated? || r.outcome == Aborted ==>
        |r.prompts| >= 2 && r.prompts[|r.prompts| - 1] == Confirm(ans.metadata) &&
        r.prompts[|r.prompts| - 2] == Metadata(r.state.template, env.licenses, Skips(env.profile, r.state.template, env.templates)) &&
        r.state.pkg == Some(ans.metadata)
    ensures var r := InitSpec(s, env, ans);
      r.outcome.Generated? <==> (r.outcome.Generated? || r.outcome == Aborted) && ans.confirm
    ensures var r := InitSpec(s, env, ans);
      r.outcome.Generated? ==> r.outcome.pkg == ans.metadata && r.outcome.error == env.generatorError
  {
  }

  /**
   * The generator overrides existing files exactly when the recorded force
   * mode is "overriding"; license and template come from the confirmed
   * metadata as they are.
   */
  lemma OverrideIsExact(s: OptionsState, env: Collaborators, ans: Answers)
    ensures var r := InitSpec(s, env, ans);
      r.outcome.Generated? ==>
        (r.outcome.options.override <==> r.state.force == Some(Overriding)) &&
        r.outcome.options.cwd == s.cwd && r.outcome.options.neuronVersion == env.neuronVersion &&
        r.outcome.options.license == Lookup(ans.metadata, "license") &&
        r.outcome.options.template == Lookup(ans.metadata, "template")
  {
  }

  /**
   * Picking "Skip" at the conflict prompt records "Skipping", which `_run`
   * does not cancel, and a confirmed run then generates without overriding.
   */
  lemma SkipGeneratesWithoutOverride(s: OptionsState, env: Collaborators, ans: Answers)
    requires env.listing.Some? && env.listing.value != []
    requires !Truthy(s.force)
    requires ans.conflictChoice == ConflictChoices[0] && ans.confirm
    ensures InitSpec(s, env, ans).state.force == Some(Skipping)
    ensures InitSpec(s, env, ans).outcome.Generated?
    ensures !InitSpec(s, env, ans).outcome.options.override
  {
  }

  /**
   * The metadata questions receive the skip map of the resolved template;
   * when they keep the pre-filled fields, a truthy profile `username` and
   * `email` reach the generator unchanged as `author_name` and `author_email`.
   */
  lemma ProfileFieldsReachGenerator(s: OptionsState, env: Collaborators, ans: Answers)
    requires KeepsSkipped(ans.metadata, Skips(env.profile, AskTemplate(s.template, env.templates, ans.templateChoice), env.templates))
    ensures var r := InitSpec(s, env, ans);
      r.outcome.Generated? && Truthy(Lookup(env.profile, "username")) ==>
        "author_name" in r.outcome.pkg && r.outcome.pkg["author_name"] == env.profile["username"]
    ensures var r := InitSpec(s, env, ans);
      r.outcome.Generated? && Truthy(Lookup(env.profile, "email")) ==>
        "author_email" in r.outcome.pkg && r.outcome.pkg["author_email"] == env.profile["email"]
  {
  }
}
