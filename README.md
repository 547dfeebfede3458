# cortex `init` wizard — a Dafny model

`cortex init` builds a skeleton for a new cortex project. It checks whether the working
directory is empty. It resolves which scaffold template to use. When the directory already
holds files, it asks whether to skip them, override them or cancel, unless the caller already
chose a force mode. It then asks the package
metadata questions, pre-filling what the user profile already knows. It shows the result for
confirmation, and only then calls the scaffold generator.

This project models that decision layer (lib/command/init.js) as a state machine over the
caller's `options` object:

- `wrappers.dfy` — `Option`, for JavaScript values that may be `undefined`.
- `init_decisions.dfy` — module `InitDecisions`, the pure decisions:
  - the emptiness test of `_check_cwd`;
  - `_ask_template`;
  - the `CHOICES` lookup of `_ask_about_forcing`;
  - the `_run` switch;
  - the option record `_generate` passes to the generator;
  - `_skipped`, as a method with a loop over the fixed profile table, proved against its
    specification function `Skips`.
- `init_wizard.dfy` — module `InitWizard`:
  - the class `Options`, whose methods update `empty`, `template`, `_force` (`force`) and
    `pkg` in the order `run` does;
  - the function `InitSpec`, which describes a whole run as the final options, the prompts
    shown in order, and the outcome (`Threw`, `CancelledByUser`, `Aborted` or `Generated`);
  - lemmas for the wizard's promises.

Every collaborator is an input:

- `Collaborators` holds the directory listing, the generator's template and license lists,
  the profile store, the runtime version and the error the generator calls back with.
- `Answers` holds what the user answers at each prompt. An answer is consulted only when its
  prompt is shown.

JavaScript truthiness of a possibly-undefined string is `Truthy`: the value is defined and
not empty.

Two behaviours of the code look unintended; the model keeps them as written:

- With exactly one available template, the code resolves to the literal `"default"`, not to
  that template's name (lib/command/init.js:62-63).
- When the directory cannot be listed, the code's error branch refers to an undeclared
  variable `dir` (lib/command/init.js:104). It therefore throws instead of calling back with
  an `EREADDIR` error. The model ends such a run in `Threw`: no prompt is shown, the options
  are unchanged and the callback is never called.

## Model

| member | source | states |
|---|---|---|
| `InitDecisions.IsEmpty` | lib/command/init.js:110 | the directory is empty exactly when its listing has no entry |
| `InitDecisions.AskTemplate` | lib/command/init.js:60-77 | one available template gives the literal "default"; otherwise a request other than "default" is kept unchecked; otherwise the user's pick from the list is used; no other value is possible |
| `InitDecisions.ChoiceToken` | lib/command/init.js:208-218 | the token is keyed by the answer's first character: O gives "overriding", S gives "Skipping" (capitalised), C gives "none", U gives "updating"; anything else, the empty answer included, gives undefined |
| `InitDecisions.OfferedChoicesTokens` | lib/command/init.js:196-213 | the three offered labels map to "Skipping", "overriding" and "none" in that order, and none of them maps to "updating" |
| `InitDecisions.Dispatch` | lib/command/init.js:80-94 | `_run` stops exactly on "none"; every other token, undefined included, goes on to `_new` |
| `InitDecisions.PrefillKeys` | lib/command/init.js:119-127 | walking the profile table, a field is pre-filled exactly when some row targets it with a truthy profile value |
| `InitDecisions.PrefillValue` | lib/command/init.js:122-126 | a pre-filled field holds the profile value of the last row that targets it with a truthy value |
| `InitDecisions.ProfilePrefill` | lib/command/init.js:115-127 | over the fixed table, `author_name` and `author_email` are pre-filled exactly when the profile's `username` and `email` are truthy, with those values, and nothing else is |
| `InitDecisions.Skips` | lib/command/init.js:115-134 | the skip map holds only `author_name`, `author_email` and `template`: the first two exactly for a truthy `username` and `email`, `template` exactly when the resolved template is an available one; each with that value |
| `InitDecisions.Skipped` | lib/command/init.js:119-134 | the loop over the profile table followed by the template check builds exactly the skip map `Skips` describes |
| `InitWizard.Options.constructor` | lib/command/init.js:14-15 | the caller's options: working directory, requested template and optional force mode, with `empty` and `pkg` unset |
| `InitWizard.Options.Run` | lib/command/init.js:15-58 | the fields and prompts after `run` are those of `InitSpec` for the options before it |
| `InitWizard.Options.AskAboutForcing` | lib/command/init.js:216-222 | `_force` becomes the token of the picked conflict label and nothing else changes |
| `InitWizard.Options.RunSelected` | lib/command/init.js:80-94 | `_run` either stops with `pkg` untouched or continues exactly as `_new` specifies |
| `InitWizard.Options.New` | lib/command/init.js:138-193 | `pkg` becomes the metadata answers; the metadata prompt gets the template's schemas, the licenses and the skip map; generation follows only an accepted confirmation |
| `InitWizard.UnreadableDirectoryThrows` | lib/command/init.js:97-107 | an unlistable directory ends the run with no prompt, no change to the options and no callback |
| `InitWizard.EmptyFlagRecorded` | lib/command/init.js:29-34 | once the directory is listed, `options.empty` records whether it is empty and the run does not throw |
| `InitWizard.EmptyDirectoryForcesOverriding` | lib/command/init.js:43-46 | an empty directory sets the force mode to "overriding", shows no conflict prompt and is never cancelled |
| `InitWizard.SuppliedForceKept` | lib/command/init.js:48-50 | a non-empty directory with a truthy caller-supplied force mode keeps it and shows no conflict prompt |
| `InitWizard.ConflictPromptShownOnce` | lib/command/init.js:52-55 | a non-empty directory without a supplied force mode shows the conflict prompt exactly once and records the picked label's token |
| `InitWizard.OfferedLabelNeverUpdates` | lib/command/init.js:200-219 | picking an offered conflict label records "Skipping", "overriding" or "none", never "updating" |
| `InitWizard.TemplateResolved` | lib/command/init.js:36-41 | the template list is shown exactly when `_ask_template` must prompt, and `options.template` becomes its result |
| `InitWizard.RequestedTemplateUnchecked` | lib/command/init.js:66-68 | with other than one available template, a requested name other than "default" is used as it is, without the template list, even when the generator does not offer it; such a template is then not pre-filled |
| `InitWizard.SingleTemplateEmptyDirectory` | lib/command/init.js:36-46 | one template "default", a request for "foo" and an empty directory give template "default", force "overriding", and neither the template list nor the conflict prompt |
| `InitWizard.CancelSkipsCreation` | lib/command/init.js:81-84 | a run is cancelled exactly when its force mode is "none"; it then asks no metadata, leaves `pkg` as it was and does not generate |
| `InitWizard.GenerationOnlyAfterConfirmation` | lib/command/init.js:146-160 | a run that reaches `_new` ends with the metadata prompt, given the resolved template, the licenses and the skip map of `Skips`, and then the confirmation prompt; it generates exactly when the confirmation is accepted, with the confirmed metadata, and otherwise aborts; the generator's error is passed through |
| `InitWizard.OverrideIsExact` | lib/command/init.js:184-193 | `_generate`'s option record (`GeneratorOptions`) in a generating run overrides exactly when the recorded force mode is "overriding", uses the caller's directory and the runtime version, and takes license and template from the metadata as they are, undefined when absent |
| `InitWizard.SkipGeneratesWithoutOverride` | lib/command/init.js:81-92 | picking "Skip" records "Skipping", which `_run` does not cancel, and a confirmed run then generates without override |
| `InitWizard.ProfileFieldsReachGenerator` | lib/command/init.js:119-152 | when the metadata questions keep the pre-filled fields, a truthy profile `username` and `email` reach the generator unchanged as `author_name` and `author_email` |

## Left out

- The directory read itself (`fs.readdir`) is an input: a listing, or `None` when the read fails.
- Prompt rendering and answer collection (`asks.prompt`, `cortex-init-prompts`) are external
  libraries. Their results are the fields of `Answers`.
- The registration of template-specific questions (`prompts.mixinExtraSchemas`,
  `generator.getExtraSchemas`) is recorded only as the template name in the `Metadata`
  prompt.
- The scaffold generator, its template and license lists, and `neuron.version()` are foreign
  calls. Only the arguments the wizard passes to them are modelled.
- Logger output and the JSON display of the collected metadata are presentation only.
- `generator.availableTemplates()` is called twice, in `_ask_template` and in `_skipped`. The
  model takes both calls to return the same list, `Collaborators.templates`.
- The callback chaining is modelled as straight-line steps; a run ends at most once, in its
  `Outcome`.
- The error branch of `_ask_template`'s caller (lib/command/init.js:37-39) is not modelled.
  `_ask_template` never calls back with an error, and prompt-engine failures are outside this
  model.
- Profile values and metadata answers are strings. The source accepts any JavaScript value
  there, for example a structured license. `options.template` is a string and is never
  undefined.
- The commented-out "updating" branch of `_run` and the "Update" label are not modelled.
  The `U` key of `CHOICES` is kept.
- ProfileFieldsReachGenerator: holds only under the assumption that the metadata questions keep
  the pre-filled fields. That behaviour belongs to the external prompt library.
