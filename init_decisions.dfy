/**
 * The pure decisions of `cortex init` (lib/command/init.js): template
 * resolution, the conflict-answer lookup, the `_run` dispatch, the directory
 * emptiness test, the generator's option record and the skip map handed to
 * the metadata questions.
 *
 * JavaScript strings that may be `undefined` are `Option<string>`; a value is
 * truthy when it is defined and not the empty string.
 */
module InitDecisions {
  import opened Wrappers

  /** The template name that stands for "no explicit choice". */
  const DefaultTemplate: string := "default"

  /** The force-mode tokens the wizard can record in `options._force`. */
  const Overriding: string := "overriding"
  const Skipping: string := "Skipping"
  const Updating: string := "updating"
  const Cancel: string := "none"

  /**
   * The labels offered by the conflict prompt, in the order shown. The first
   * one is written as two literals because the verifier sees the characters
   * of short string literals only, and its first character matters.
   */
  const ConflictChoices: seq<string> := [
    "Skip: Skip existing files, " + "and initialize other files.",
    "Override: override existing files.",
    "Cancel: cancel initializing."
  ]

  /** The profile keys copied into the metadata, with the field each one fills. */
  const SkippedMap: seq<(string, string)> := [("username", "author_name"), ("email", "author_email")]

  /** JavaScript truthiness of a string that may be undefined. */
  predicate Truthy(v: Option<string>) {
    v.Some? && v.value != ""
  }

  /** Property access on a string-valued object: undefined when the key is absent. */
  function Lookup(m: map<string, string>, key: string): (v: Option<string>) {
    if key in m then Some(m[key]) else None
  }

  // ---------------------------------------------------------------------------
  // _check_cwd

  /** `!files.length`: the listing of the working directory has no entry. */
  function IsEmpty(files: seq<string>): (empty: bool)
    ensures empty <==> files == []
  {
    |files| == 0
  }

  // ---------------------------------------------------------------------------
  // _ask_template

  /** Whether `_ask_template` has to show the template list to the user. */
  predicate TemplatePrompted(requested: string, available: seq<string>) {
    |available| != 1 && requested == DefaultTemplate
  }

  /**
   * `_ask_template`: with exactly one available template the literal
   * "default" is used, whatever was requested; otherwise a requested name
   * other than "default" is kept unchecked; otherwise the user's pick from
   * the list (`choice`) is the result.
   */
  function AskTemplate(requested: string, available: seq<string>, choice: string): (r: string)
    ensures |available| == 1 ==> r == DefaultTemplate
    ensures |available| != 1 && requested != DefaultTemplate ==> r == requested
    ensures TemplatePrompted(requested, available) ==> r == choice
    ensures r == DefaultTemplate || r == requested || r == choice
  {
    if |available| == 1 then DefaultTemplate
    else if requested != DefaultTemplate then requested
    else choice
  }

  // ---------------------------------------------------------------------------
  // _ask_about_forcing

  /** `CHOICES[answer.slice(0, 1)]`: the token keyed by the answer's first character. */
  function ChoiceToken(answer: string): (token: Option<string>)
    ensures token.Some? <==> |answer| > 0 && answer[0] in "UCOS"
    ensures token == Some(Overriding) <==> |answer| > 0 && answer[0] == 'O'
    ensures token == Some(Skipping) <==> |answer| > 0 && answer[0] == 'S'
    ensures token == Some(Cancel) <==> |answer| > 0 && answer[0] == 'C'
    ensures token == Some(Updating) <==> |answer| > 0 && answer[0] == 'U'
  {
    if |answer| == 0 then None
    else match answer[0]
      case 'U' => Some(Updating)
      case 'C' => Some(Cancel)
      case 'O' => Some(Overriding)
      case 'S' => Some(Skipping)
      case _ => None
  }

  /** Each offered answer maps to its own token, and none of them to "updating". */
  lemma OfferedChoicesTokens()
    ensures ChoiceToken(ConflictChoices[0]) == Some(Skipping)
    ensures ChoiceToken(ConflictChoices[1]) == Some(Overriding)
    ensures ChoiceToken(ConflictChoices[2]) == Some(Cancel)
    ensures forall i :: 0 <= i < |ConflictChoices| ==> ChoiceToken(ConflictChoices[i]) != Some(Updating)
  {
  }

  // ---------------------------------------------------------------------------
  // _run

  /** Where `_run` goes next: stop, or create the new project with `_new`. */
  datatype Step = Stop | CreateNew

  /**
   * The `_run` switch: only the token "none" stops; every other token,
   * "Skipping" and "updating" included, and an undefined `_force` go on to
   * `_new`.
   */
  function Dispatch(force: Option<string>): (step: Step)
    ensures step == Stop <==> force == Some(Cancel)
  {
    match force
    case Some(token) => if token == Cancel then Stop else CreateNew
    case None => CreateNew
  }

  // ---------------------------------------------------------------------------
  // _generate

  /** The options record passed to the scaffold generator. */
  datatype GenerateOptions = GenerateOptions(
    override: bool,
    cwd: string,
    neuronVersion: string,
    license: Option<string>,
    template: Option<string>)

  /**
   * `_generate`'s option record: files are overridden exactly in the
   * "overriding" mode, and the license and template are the confirmed
   * metadata's own fields (undefined when absent).
   */
  function GeneratorOptions(force: Option<string>, cwd: string, neuronVersion: string, pkg: map<string, string>): (o: GenerateOptions) {
    GenerateOptions(force == Some(Overriding), cwd, neuronVersion, Lookup(pkg, "license"), Lookup(pkg, "template"))
  }

  // ---------------------------------------------------------------------------
  // _skipped

  /**
   * The skip entries contributed by the profile keys of `table`, visited in
   * order: a truthy profile value is written under the field it maps to.
   */
  function Prefill(table: seq<(string, string)>, profile: map<string, string>): (m: map<string, string>)
    decreases |table|
  {
    if table == [] then map[]
    else
      var prior := Prefill(table[..|table| - 1], profile);
      var (key, field) := table[|table| - 1];
      if Truthy(Lookup(profile, key)) then prior[field := profile[key]] else prior
  }

  /** Row `i` of the table fills `field` from a truthy profile value. */
  predicate Fills(table: seq<(string, string)>, profile: map<string, string>, field: string, i: int) {
    0 <= i < |table| && table[i].1 == field && Truthy(Lookup(profile, table[i].0))
  }

  /** Row `i` fills `field`, and no later row does. */
  predicate LastFills(table: seq<(string, string)>, profile: map<string, string>, field: string, i: int) {
    Fills(table, profile, field, i) && forall j :: i < j < |table| ==> !Fills(table, profile, field, j)
  }

  /** A field is pre-filled exactly when some row of the table fills it. */
  lemma {:induction false} PrefillKeys(table: seq<(string, string)>, profile: map<string, string>, field: string)
    ensures field in Prefill(table, profile) <==> exists i :: Fills(table, profile, field, i)
    decreases |table|
  {
    if table != [] {
      var n := |table|;
      var front := table[..n - 1];
      PrefillKeys(front, profile, field);
      if field in Prefill(table, profile) {
        if field in Prefill(front, profile) {
          var i :| Fills(front, profile, field, i);
          assert Fills(table, profile, field, i);
        } else {
          assert Fills(table, profile, field, n - 1);
        }
      }
      if exists i :: Fills(table, profile, field, i) {
        var i :| Fills(table, profile, field, i);
        if i < n - 1 {
          assert Fills(front, profile, field, i);
        }
      }
    }
  }

  /** A pre-filled field holds the profile value of the last row that fills it. */
  lemma {:induction false} PrefillValue(table: seq<(string, string)>, profile: map<string, string>, field: string, i: int)
    requires LastFills(table, profile, field, i)
    ensures field in Prefill(table, profile) && Prefill(table, profile)[field] == profile[table[i].0]
    decreases |table|
  {
    var n := |table|;
    var front := table[..n - 1];
    if i < n - 1 {
      assert !Fills(table, profile, field, n - 1);
      forall j | i < j < |front| ensures !Fills(front, profile, field, j) {
        assert !Fills(table, profile, field, j);
      }
      PrefillValue(front, profile, field, i);
    }
  }

  /** Unfolds `Prefill` over the fixed two-row table. */
  lemma ProfilePrefill(profile: map<string, string>)
    ensures Prefill(SkippedMap, profile).Keys <= {"author_name", "author_email"}
    ensures "author_name" in Prefill(SkippedMap, profile) <==> Truthy(Lookup(profile, "username"))
    ensures "author_name" in Prefill(SkippedMap, profile) ==> Prefill(SkippedMap, profile)["author_name"] == profile["username"]
    ensures "author_email" in Prefill(SkippedMap, profile) <==> Truthy(Lookup(profile, "email"))
    ensures "author_email" in Prefill(SkippedMap, profile) ==> Prefill(SkippedMap, profile)["author_email"] == profile["email"]
  {
    var author, email := SkippedMap[0], SkippedMap[1];
    assert author == ("username", "author_name") && email == ("email", "author_email");
    forall field | field in Prefill(SkippedMap, profile)
      ensures field == "author_name" || field == "author_email"
    {
      PrefillKeys(SkippedMap, profile, field);
    }
    PrefillKeys(SkippedMap, profile, "author_name");
    PrefillKeys(SkippedMap, profile, "author_email");
    if Truthy(Lookup(profile, "username")) {
      PrefillValue(SkippedMap, profile, "author_name", 0);
    }
    if Truthy(Lookup(profile, "email")) {
      PrefillValue(SkippedMap, profile, "author_email", 1);
    }
  }

  /** The skip map `_skipped` hands to the metadata questions. */
  function Skips(profile: map<string, string>, template: string, available: seq<string>): (skip: map<string, string>)
    ensures skip.Keys <= {"author_name", "author_email", "template"}
    ensures "author_name" in skip <==> Truthy(Lookup(profile, "username"))
    ensures "author_name" in skip ==> skip["author_name"] == profile["username"]
    ensures "author_email" in skip <==> Truthy(Lookup(profile, "email"))
    ensures "author_email" in skip ==> skip["author_email"] == profile["email"]
    ensures "template" in skip <==> template in available
    ensures "template" in skip ==> skip["template"] == template
  {
    var fromProfile := Prefill(SkippedMap, profile);
    ProfilePrefill(profile);
    if template in available then fromProfile["template" := template] else fromProfile
  }

  /**
   * `_skipped`: walks the profile table in order, copying every truthy
   * profile value under its metadata field, then pre-fills `template` when
   * the resolved template is one the generator knows.
   */
  method Skipped(profile: map<string, string>, template: string, available: seq<string>) returns (skip: map<string, string>)
    ensures skip == Skips(profile, template, available)
  {
    skip := map[];
    var i := 0;
    while i < |SkippedMap|
      invariant 0 <= i <= |SkippedMap|
      invariant skip == Prefill(SkippedMap[..i], profile)
    {
      var (key, field) := SkippedMap[i];
      var value := Lookup(profile, key);
      if Truthy(value) {
        skip := skip[field := value.value];
      }
      assert SkippedMap[..i + 1][..i] == SkippedMap[..i];
      i := i + 1;
    }
    assert SkippedMap[..i] == SkippedMap;
    if template in available {
      skip := skip["template" := template];
    }
  }
}
