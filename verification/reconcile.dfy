/** Building the record each submit path saves: the custom-skill path edits
    the freshly loaded record, the main path assembles a new one from the
    form. */
module Reconcile {
  import opened Wrappers
  import opened SkillText
  import opened StringOrder
  import opened Taxonomy
  import opened FormDefaults
  import opened Profiles

  /** An uploaded resume file. */
  datatype Upload = Upload(name: string)

  /** The form as submitted: the selections of every widget. */
  datatype Form = Form(
    targetRole: string,
    motivation: string,
    learningMode: string,
    timeframeOption: string,
    months: Months,
    currentSkills: seq<string>,
    targetSkills: seq<string>,
    newCurrentSkill: string,
    newTargetSkill: string,
    upload: Option<Upload>)

  /** The widgets can only return their own options. */
  predicate FromWidgets(form: Form) {
    && form.targetRole in AllRoles
    && form.learningMode in LearningModes
    && form.timeframeOption in Timeframes
  }

  /** `new_current_skill.strip() or new_target_skill.strip()`: either
      custom-skill box is non-empty once stripped. */
  predicate HasCustomText(form: Form) {
    NormalizeSkill(form.newCurrentSkill) != [] || NormalizeSkill(form.newTargetSkill) != []
  }

  /** The custom-skill path is taken exactly when either box holds something
      other than whitespace. */
  lemma HasCustomTextMeans(form: Form)
    ensures HasCustomText(form) <==> !AllSpace(form.newCurrentSkill) || !AllSpace(form.newTargetSkill)
  {
  }

  /** Adds the stripped `text` to `skills` unless it is empty or already
      there (exact match). The list only grows, by at most that one entry,
      and stays free of duplicates. */
  function AddCustomSkill(skills: seq<string>, text: string): (r: seq<string>)
    ensures skills <= r && |r| <= |skills| + 1
    ensures forall y :: y in r <==> y in skills || (y == NormalizeSkill(text) && y != [])
    ensures NoDuplicates(skills) ==> NoDuplicates(r)
    ensures NormalizeSkill(text) == [] || NormalizeSkill(text) in skills ==> r == skills
  {
    var skill := NormalizeSkill(text);
    if skill != [] && skill !in skills then
      assert NoDuplicates(skills) ==> NoDuplicates(skills + [skill]) by {
        if NoDuplicates(skills) { AppendFresh(skills, skill); }
      }
      skills + [skill]
    else skills
  }

  /** Adding the same text twice is the same as adding it once. */
  lemma AddCustomSkillIdempotent(skills: seq<string>, text: string)
    ensures AddCustomSkill(AddCustomSkill(skills, text), text) == AddCustomSkill(skills, text)
  {
  }

  /** The stripped text occurs exactly once after adding it to a list that
      lacked it. */
  lemma AddCustomSkillOnce(skills: seq<string>, text: string)
    requires NormalizeSkill(text) != [] && NormalizeSkill(text) !in skills
    ensures multiset(AddCustomSkill(skills, text))[NormalizeSkill(text)] == 1
  {
  }

  /** The custom-skill path's record: every field of the loaded record is
      copied, and only the two skill lists may grow, each by its stripped
      custom text; a list whose text is empty or already present is left
      exactly as it was. */
  function ReconcileCustom(existing: TargetProfile, newCurrent: string, newTarget: string): (r: TargetProfile)
    ensures r.(currentSkills := existing.currentSkills, targetSkills := existing.targetSkills) == existing
    ensures existing.currentSkills <= r.currentSkills && existing.targetSkills <= r.targetSkills
    ensures forall y :: y in r.currentSkills <==> y in existing.currentSkills || (y == NormalizeSkill(newCurrent) && y != [])
    ensures forall y :: y in r.targetSkills <==> y in existing.targetSkills || (y == NormalizeSkill(newTarget) && y != [])
    ensures |r.currentSkills| <= |existing.currentSkills| + 1 && |r.targetSkills| <= |existing.targetSkills| + 1
    ensures NoDuplicates(existing.currentSkills) ==> NoDuplicates(r.currentSkills)
    ensures NoDuplicates(existing.targetSkills) ==> NoDuplicates(r.targetSkills)
    ensures NormalizeSkill(newCurrent) == [] || NormalizeSkill(newCurrent) in existing.currentSkills
      ==> r.currentSkills == existing.currentSkills
    ensures NormalizeSkill(newTarget) == [] || NormalizeSkill(newTarget) in existing.targetSkills
      ==> r.targetSkills == existing.targetSkills
  {
    existing.(
      currentSkills := AddCustomSkill(existing.currentSkills, newCurrent),
      targetSkills := AddCustomSkill(existing.targetSkills, newTarget))
  }

  /** Reconciling twice with the same custom text yields the same record as
      reconciling once. */
  lemma ReconcileCustomIdempotent(existing: TargetProfile, newCurrent: string, newTarget: string)
    ensures ReconcileCustom(ReconcileCustom(existing, newCurrent, newTarget), newCurrent, newTarget)
         == ReconcileCustom(existing, newCurrent, newTarget)
  {
    AddCustomSkillIdempotent(existing.currentSkills, newCurrent);
    AddCustomSkillIdempotent(existing.targetSkills, newTarget);
  }

  /** The padded custom skill "  Negotiation  " is stored once, trimmed,
      however often it is submitted. */
  lemma NegotiationStoredOnce(existing: TargetProfile, text: string, newTarget: string)
    requires text == "  Negotiation  " && "Negotiation" !in existing.currentSkills
    ensures multiset(ReconcileCustom(existing, text, newTarget).currentSkills)["Negotiation"] == 1
    ensures ReconcileCustom(ReconcileCustom(existing, text, newTarget), text, newTarget)
         == ReconcileCustom(existing, text, newTarget)
  {
    NormalizeNegotiation(text);
    AddCustomSkillOnce(existing.currentSkills, text);
    ReconcileCustomIdempotent(existing, text, newTarget);
  }

  /** The outcome of `parse_and_save_text` followed by reading its file. */
  datatype ParseResult = Parsed(textPath: string, text: string) | ParseError(message: string)

  datatype ResumeFields = ResumeFields(text: Option<string>, filename: Option<string>)

  /** The resume fields of the main path's record: the stored ones without
      an upload, the parsed text and the upload's name after a successful
      parse, and nothing at all after a failed one. */
  function ResolveResume(stored: TargetProfile, upload: Option<Upload>, parse: ParseResult): (r: ResumeFields)
    ensures upload.None? ==> r.text == stored.resumeText && r.filename == stored.resumeFilename
    ensures upload.Some? && parse.Parsed? ==> r == ResumeFields(Some(parse.text), Some(upload.value.name))
    ensures upload.Some? && parse.ParseError? ==> r == ResumeFields(None, None)
  {
    match upload
    case None => ResumeFields(stored.resumeText, stored.resumeFilename)
    case Some(file) =>
      match parse
      case Parsed(_, text) => ResumeFields(Some(text), Some(file.name))
      case ParseError(_) => ResumeFields(None, None)
  }

  /** After an upload the text and the name always describe the same file:
      both are set, or both are cleared; stale stored text never survives. */
  lemma UploadReplacesBothFields(stored: TargetProfile, upload: Upload, parse: ParseResult)
    ensures ResolveResume(stored, Some(upload), parse).text.Some?
        <==> ResolveResume(stored, Some(upload), parse).filename.Some?
    ensures ResolveResume(stored, Some(upload), parse).filename.Some?
        ==> ResolveResume(stored, Some(upload), parse).filename.value == upload.name
  {
  }

  /** The main path's record: the form's selections, the resolved resume
      fields, and the stored analysis carried forward. */
  function AssembleMain(stored: TargetProfile, form: Form, resume: ResumeFields): (r: TargetProfile)
    ensures r.analysis == stored.analysis
    ensures r.resumeText == resume.text && r.resumeFilename == resume.filename
    ensures r.targetRole == Some(form.targetRole) && r.motivation == Some(form.motivation)
    ensures r.currentSkills == form.currentSkills && r.targetSkills == form.targetSkills
    ensures r.learningMode == Some(form.learningMode)
    ensures r.timeframe == Some(form.timeframeOption)
    ensures r.customMonths.Some? <==> form.timeframeOption == Flexible
    ensures r.customMonths.Some? ==> r.customMonths.value == form.months as int
  {
    var choice := FinalTimeframe(form.timeframeOption, form.months);
    TargetProfile(
      targetRole := Some(form.targetRole),
      motivation := Some(form.motivation),
      currentSkills := form.currentSkills,
      targetSkills := form.targetSkills,
      learningMode := Some(form.learningMode),
      timeframe := Some(choice.timeframe),
      customMonths := choice.customMonths,
      resumeText := resume.text,
      resumeFilename := resume.filename,
      analysis := stored.analysis)
  }

  /** A main-path record reopens the form on the same selections: the role,
      learning-mode and timeframe boxes start on the submitted entries and a
      "Flexible" timeframe's months input on the submitted months. */
  lemma MainRecordReopensForm(stored: TargetProfile, form: Form, resume: ResumeFields)
    requires FromWidgets(form)
    ensures AllRoles[RoleIndex(AssembleMain(stored, form, resume).targetRole)] == form.targetRole
    ensures LearningModes[LearningIndex(AssembleMain(stored, form, resume).learningMode)] == form.learningMode
    ensures Timeframes[TimeframeIndex(AssembleMain(stored, form, resume).timeframe)] == form.timeframeOption
    ensures form.timeframeOption == Flexible ==>
      DefaultMonths(AssembleMain(stored, form, resume).customMonths) == form.months
  {
    TimeframeRoundTrip(form.timeframeOption, form.months);
  }
}
