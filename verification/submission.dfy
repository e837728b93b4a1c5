/** The submit handler as one step: from the loaded profile, the submitted
    form, the session and the results of the outside calls, it decides the
    outcome, the calls made in order, and the next session. */
module Submission {
  import opened Wrappers
  import opened SkillText
  import opened Taxonomy
  import opened FormDefaults
  import opened Profiles
  import opened Reconcile

  /** The fields handed to the analysis pipeline. */
  datatype PipelineInput = PipelineInput(
    role: Option<string>,
    targetRole: string,
    currentSkills: seq<string>,
    targetSkills: seq<string>,
    experience: Option<string>,
    learningMode: string,
    motivation: string,
    timeframe: string)

  /** A call to the outside made during a submit. */
  datatype Call =
    | SaveProfile(record: TargetProfile)
    | ParseResume(file: Upload)
    | WriteResumeText(path: string, text: string)
    | RunPipeline(input: PipelineInput, resumePath: string, useCache: bool, forceRefresh: bool)

  datatype SaveResult = SaveResult(success: bool, message: string)

  datatype PipelineResult = PipelineOk(context: Context) | PipelineError

  /** What the outside calls return during this submit: the record loaded
      again by the custom-skill path, the resume parse, the (first) save, the
      write of the stored resume text, and the pipeline. */
  datatype World = World(
    reloaded: TargetProfile,
    parse: ParseResult,
    save: SaveResult,
    resumeWriteOk: bool,
    pipeline: PipelineResult)

  datatype Outcome =
    | CustomSkillsAdded           // rerun with the next form generation
    | CustomSkillsFailed(message: string)
    | RoleRequired                // warning, nothing saved
    | SaveFailed(message: string)
    | SavedWithoutAnalysis
    | AnalysisReady(context: Context)  // switch to the analysis dashboard
    | AnalysisFailed

  /** The session values this page changes: the form generation counter and
      the analysis handed to the dashboard. */
  datatype Session = Session(formGeneration: nat, analysis: Option<Context>)

  /** One submit: its outcome, the calls made in order, the next session,
      and the error reported when parsing an upload failed (shown whatever
      the outcome, since the save goes ahead). */
  datatype Step = Step(outcome: Outcome, calls: seq<Call>, session: Session, parseError: Option<string>)

  /** Where the pipeline reads the resume text when nothing was uploaded. */
  const DefaultResumePath: string := "data/text.txt"

  /** The records saved by a call sequence, in order. */
  function Saves(calls: seq<Call>): (r: seq<TargetProfile>)
    ensures |r| <= |calls|
    ensures forall p :: p in r <==> SaveProfile(p) in calls
  {
    if |calls| == 0 then []
    else
      var rest := Saves(calls[1..]);
      assert forall c :: c in calls <==> c == calls[0] || c in calls[1..];
      match calls[0]
      case SaveProfile(p) => [p] + rest
      case _ => rest
  }

  lemma {:induction false} SavesAppend(a: seq<Call>, b: seq<Call>)
    ensures Saves(a + b) == Saves(a) + Saves(b)
  {
    if |a| > 0 {
      assert (a + b)[0] == a[0];
      assert (a + b)[1..] == a[1..] + b;
      SavesAppend(a[1..], b);
    } else {
      assert a + b == b;
    }
  }

  /** The custom-skill path: reconcile the reloaded record, save it, and
      advance the form generation only when the save succeeds. */
  function CustomPath(form: Form, session: Session, world: World): (r: Step)
    ensures r.calls == [SaveProfile(ReconcileCustom(world.reloaded, form.newCurrentSkill, form.newTargetSkill))]
    ensures world.save.success ==> r.outcome == CustomSkillsAdded && r.session.formGeneration == session.formGeneration + 1
    ensures !world.save.success ==> r.outcome == CustomSkillsFailed(world.save.message) && r.session == session
    ensures r.session.analysis == session.analysis
    ensures r.parseError == None
  {
    var record := ReconcileCustom(world.reloaded, form.newCurrentSkill, form.newTargetSkill);
    if world.save.success then
      Step(CustomSkillsAdded, [SaveProfile(record)], session.(formGeneration := session.formGeneration + 1), None)
    else
      Step(CustomSkillsFailed(world.save.message), [SaveProfile(record)], session, None)
  }

  /** The pipeline input: the form's selections, and the role and the
      experience read from the loaded profile with defaults "" and "N/A",
      which apply only when the key is missing; a stored null is passed on
      as `None`. */
  function PipelineInputOf(page: StoredProfile, form: Form): (p: PipelineInput)
    ensures p.targetRole == form.targetRole && p.motivation == form.motivation
    ensures p.currentSkills == form.currentSkills && p.targetSkills == form.targetSkills
    ensures p.learningMode == form.learningMode && p.timeframe == form.timeframeOption
    ensures p.role.None? <==> page.currentRole.Null?
    ensures page.currentRole.Absent? ==> p.role == Some("")
    ensures page.currentRole.Present? ==> p.role == Some(page.currentRole.value)
    ensures p.experience.None? <==> page.experience.Null?
    ensures page.experience.Absent? ==> p.experience == Some("N/A")
    ensures page.experience.Present? ==> p.experience == Some(page.experience.value)
  {
    PipelineInput(
      role := GetWithDefault(page.currentRole, ""),
      targetRole := form.targetRole,
      currentSkills := form.currentSkills,
      targetSkills := form.targetSkills,
      experience := GetWithDefault(page.experience, "N/A"),
      learningMode := form.learningMode,
      motivation := form.motivation,
      timeframe := FinalTimeframe(form.timeframeOption, form.months).timeframe)
  }

  /** The resume text file the pipeline reads: the parser's file after an
      upload, otherwise the well-known path. An upload whose parse failed
      never reaches the pipeline, since it leaves no resume text. */
  function ResumePath(form: Form, parse: ParseResult): (r: string)
    ensures form.upload.Some? && parse.Parsed? ==> r == parse.textPath
    ensures form.upload.None? ==> r == DefaultResumePath
  {
    match (form.upload, parse)
    case (Some(_), Parsed(path, _)) => path
    case _ => DefaultResumePath
  }

  /** The pipeline was called. */
  predicate CallsPipeline(calls: seq<Call>) {
    exists c | c in calls :: c.RunPipeline?
  }

  /** Every pipeline call in `calls` bypasses the cache and forces a refresh. */
  predicate FreshPipelineCalls(calls: seq<Call>) {
    forall c | c in calls && c.RunPipeline? :: !c.useCache && c.forceRefresh
  }

  /** The records saved after a first save of `record`, given the outcome:
      the same record with the new context when the analysis is ready,
      nothing otherwise. */
  function FollowUpSaves(record: TargetProfile, outcome: Outcome): seq<TargetProfile> {
    if outcome.AnalysisReady? then [record.(analysis := Some(outcome.context))] else []
  }

  /** The pipeline call and what follows it: on success the context is
      saved as a second, otherwise identical record and handed to the
      session; on failure nothing more is saved. */
  function PipelineStage(input: PipelineInput, path: string, record: TargetProfile, session: Session,
                         result: PipelineResult, before: seq<Call>): (r: Step)
    ensures before <= r.calls
    ensures r.outcome.AnalysisReady? || r.outcome == AnalysisFailed
    ensures Saves(r.calls) == Saves(before) + FollowUpSaves(record, r.outcome)
    ensures FreshPipelineCalls(before) ==> FreshPipelineCalls(r.calls)
    ensures r.session == if r.outcome.AnalysisReady? then session.(analysis := Some(r.outcome.context)) else session
    ensures |r.calls| > |before| && r.calls[|before|] == RunPipeline(input, path, false, true)
    ensures r.outcome.AnalysisReady? <==> result.PipelineOk?
    ensures r.outcome.AnalysisReady? ==> result == PipelineOk(r.outcome.context)
    ensures r.parseError == None
  {
    var run := RunPipeline(input, path, false, true);
    assert FreshPipelineCalls([run]);
    SavesAppend(before, [run]);
    match result
    case PipelineOk(context) =>
      var second := SaveProfile(record.(analysis := Some(context)));
      SavesAppend(before + [run], [second]);
      assert FreshPipelineCalls([second]);
      assert before + [run] + [second] == before + [run, second];
      Step(AnalysisReady(context), before + [run, second], session.(analysis := Some(context)), None)
    case PipelineError =>
      Step(AnalysisFailed, before + [run], session, None)
  }

  /** The analysis stage, run after a successful first save of `record`
      when resume text is present; `before` holds the calls already made.
      Without an upload the stored resume text is first written to the
      well-known path, and a failed write ends the stage; then the pipeline
      stage runs. */
  function Analyze(page: StoredProfile, form: Form, record: TargetProfile, session: Session, world: World,
                   before: seq<Call>): (r: Step)
    ensures before <= r.calls
    ensures r.outcome.AnalysisReady? || r.outcome == AnalysisFailed
    ensures Saves(r.calls) == Saves(before) + FollowUpSaves(record, r.outcome)
    ensures FreshPipelineCalls(before) ==> FreshPipelineCalls(r.calls)
    ensures r.session == if r.outcome.AnalysisReady? then session.(analysis := Some(r.outcome.context)) else session
    ensures CallsPipeline(r.calls) <==>
      CallsPipeline(before) || !(form.upload.None? && HasText(page.record.resumeText)) || world.resumeWriteOk
    ensures r.outcome.AnalysisReady? ==> world.pipeline == PipelineOk(r.outcome.context)
    ensures r.parseError == None
  {
    var path := ResumePath(form, world.parse);
    var writes :=
      if form.upload.None? && HasText(page.record.resumeText)
      then [WriteResumeText(path, page.record.resumeText.value)]
      else [];
    AppendWrite(before, writes);
    if writes != [] && !world.resumeWriteOk then
      Step(AnalysisFailed, before + writes, session, None)
    else
      var r := PipelineStage(PipelineInputOf(page, form), path, record, session, world.pipeline, before + writes);
      assert r.calls[|before + writes|] in r.calls;
      r
  }

  /** Appending a resume write, or nothing, saves nothing and calls no
      pipeline. */
  lemma AppendWrite(before: seq<Call>, writes: seq<Call>)
    requires writes == [] || (|writes| == 1 && writes[0].WriteResumeText?)
    ensures before <= before + writes
    ensures Saves(before + writes) == Saves(before)
    ensures FreshPipelineCalls(before) ==> FreshPipelineCalls(before + writes)
    ensures CallsPipeline(before + writes) <==> CallsPipeline(before)
  {
    SavesAppend(before, writes);
    assert forall c | c in before + writes :: c in before || c in writes;
  }

  /** The record the main path saves first. */
  function MainRecord(page: StoredProfile, form: Form, world: World): TargetProfile {
    AssembleMain(page.record, form, ResolveResume(page.record, form.upload, world.parse))
  }

  /** What follows the first save of `record`: report a failed save, stop
      when there is no resume text, otherwise analyse. */
  function AfterSave(page: StoredProfile, form: Form, record: TargetProfile, hasText: bool,
                     session: Session, world: World, before: seq<Call>): (r: Step)
    requires !CallsPipeline(before)
    ensures before <= r.calls
    ensures Saves(r.calls) == Saves(before) + FollowUpSaves(record, r.outcome)
    ensures FreshPipelineCalls(before) ==> FreshPipelineCalls(r.calls)
    ensures r.outcome.AnalysisReady? || r.outcome == AnalysisFailed <==> world.save.success && hasText
    ensures !world.save.success ==> r.outcome == SaveFailed(world.save.message)
    ensures r.session == if r.outcome.AnalysisReady? then session.(analysis := Some(r.outcome.context)) else session
    ensures CallsPipeline(r.calls) <==>
      world.save.success && hasText
      && (!(form.upload.None? && HasText(page.record.resumeText)) || world.resumeWriteOk)
    ensures r.outcome.AnalysisReady? ==> world.pipeline == PipelineOk(r.outcome.context)
    ensures !(world.save.success && hasText) ==> r.calls == before
    ensures world.save.success && !hasText ==> r.outcome == SavedWithoutAnalysis
  {
    if !world.save.success then
      Step(SaveFailed(world.save.message), before, session, None)
    else if !hasText then
      Step(SavedWithoutAnalysis, before, session, None)
    else
      Analyze(page, form, record, session, world, before)
  }

  /** The calls the main path always makes, in order: the parse of an
      upload, if any, then the save of the assembled record. */
  function ParseAndSave(page: StoredProfile, form: Form, world: World): seq<Call> {
    (if form.upload.Some? then [ParseResume(form.upload.value)] else []) + [SaveProfile(MainRecord(page, form, world))]
  }

  /** The main path: parse an upload if any, save the assembled record, and
      analyse when the save succeeded and resume text is present. The first
      save always happens; a second one only with a ready analysis. */
  function MainPath(page: StoredProfile, form: Form, session: Session, world: World): (r: Step)
    ensures Saves(r.calls) == [MainRecord(page, form, world)] + FollowUpSaves(MainRecord(page, form, world), r.outcome)
    ensures FreshPipelineCalls(r.calls)
    ensures r.outcome.AnalysisReady? || r.outcome == AnalysisFailed
        <==> world.save.success && HasText(ResolveResume(page.record, form.upload, world.parse).text)
    ensures !world.save.success ==> r.outcome == SaveFailed(world.save.message)
    ensures r.session == if r.outcome.AnalysisReady? then session.(analysis := Some(r.outcome.context)) else session
    ensures CallsPipeline(r.calls) <==>
      world.save.success && HasText(ResolveResume(page.record, form.upload, world.parse).text)
      && (form.upload.Some? || world.resumeWriteOk)
    ensures r.outcome.AnalysisReady? ==> world.pipeline == PipelineOk(r.outcome.context)
    ensures ParseAndSave(page, form, world) <= r.calls
    ensures !(world.save.success && HasText(ResolveResume(page.record, form.upload, world.parse).text))
      ==> r.calls == ParseAndSave(page, form, world)
    ensures world.save.success && !HasText(ResolveResume(page.record, form.upload, world.parse).text)
      ==> r.outcome == SavedWithoutAnalysis
    ensures r.parseError.Some? <==> form.upload.Some? && world.parse.ParseError?
    ensures r.parseError.Some? ==> world.parse == ParseError(r.parseError.value)
  {
    var resume := ResolveResume(page.record, form.upload, world.parse);
    var record := AssembleMain(page.record, form, resume);
    var parseCalls := if form.upload.Some? then [ParseResume(form.upload.value)] else [];
    var saved := parseCalls + [SaveProfile(record)];
    SavesAppend(parseCalls, [SaveProfile(record)]);
    assert Saves(saved) == [record] && record == MainRecord(page, form, world);
    assert saved == ParseAndSave(page, form, world);
    assert !CallsPipeline(saved);
    assert form.upload.None? ==> resume.text == page.record.resumeText;
    var after := AfterSave(page, form, record, HasText(resume.text), session, world, saved);
    var parseError := if form.upload.Some? && world.parse.ParseError? then Some(world.parse.message) else None;
    after.(parseError := parseError)
  }

  /** The custom-skill path as the submit handler sees it: it calls
      something, never the pipeline, and reports no parse error. */
  lemma CustomPathInSubmit(form: Form, session: Session, world: World)
    ensures var r := CustomPath(form, session, world);
      && r.calls != [] && r.outcome != RoleRequired && !r.outcome.AnalysisReady?
      && !CallsPipeline(r.calls) && FreshPipelineCalls(r.calls) && r.parseError == None
      && r.session.formGeneration == session.formGeneration + (if world.save.success then 1 else 0)
      && r.session.analysis == session.analysis
  {
    OneSave(ReconcileCustom(world.reloaded, form.newCurrentSkill, form.newTargetSkill));
  }

  /** A lone save calls no pipeline. */
  lemma OneSave(p: TargetProfile)
    ensures !CallsPipeline([SaveProfile(p)]) && FreshPipelineCalls([SaveProfile(p)])
  {
    assert forall c | c in [SaveProfile(p)] :: c == SaveProfile(p);
  }

  /** The main path as the submit handler sees it: it calls something and
      keeps the form generation. */
  lemma MainPathInSubmit(page: StoredProfile, form: Form, session: Session, world: World)
    ensures var r := MainPath(page, form, session, world);
      && r.calls != [] && r.outcome != RoleRequired
      && r.session.formGeneration == session.formGeneration
      && r.session.analysis == if r.outcome.AnalysisReady? then Some(r.outcome.context) else session.analysis
  {
    var r := MainPath(page, form, session, world);
    assert |ParseAndSave(page, form, world)| > 0;
  }

  /** The submit handler. Custom-skill text takes precedence; otherwise the
      sentinel role is rejected without any call; otherwise the main path
      runs. Nothing is called exactly when the submit is rejected, and the
      form generation advances only after a successful custom-skill save. */
  function Submit(page: StoredProfile, form: Form, session: Session, world: World): (r: Step)
    ensures r.calls == [] <==> r.outcome == RoleRequired
    ensures r.outcome == RoleRequired <==> !HasCustomText(form) && form.targetRole == SelectRole
    ensures r.session.formGeneration ==
      session.formGeneration + (if HasCustomText(form) && world.save.success then 1 else 0)
    ensures FreshPipelineCalls(r.calls)
    ensures CallsPipeline(r.calls) <==>
      !HasCustomText(form) && form.targetRole != SelectRole && world.save.success
      && HasText(ResolveResume(page.record, form.upload, world.parse).text)
      && (form.upload.Some? || world.resumeWriteOk)
    ensures r.session.analysis ==
      if r.outcome.AnalysisReady? then Some(r.outcome.context) else session.analysis
    ensures r.outcome.AnalysisReady? ==> world.pipeline == PipelineOk(r.outcome.context)
    ensures r.parseError.Some? <==>
      !HasCustomText(form) && form.targetRole != SelectRole && form.upload.Some? && world.parse.ParseError?
    ensures r.parseError.Some? ==> world.parse == ParseError(r.parseError.value)
  {
    if HasCustomText(form) then
      CustomPathInSubmit(form, session, world);
      CustomPath(form, session, world)
    else if form.targetRole != SelectRole then
      MainPathInSubmit(page, form, session, world);
      MainPath(page, form, session, world)
    else
      Step(RoleRequired, [], session, None)
  }

  /** The record a step's custom-skill path or first main-path save starts
      from: the reloaded record for custom text, the page's record otherwise. */
  function Prior(page: StoredProfile, form: Form, world: World): TargetProfile {
    if HasCustomText(form) then world.reloaded else page.record
  }

  /** With custom text, the step depends on nothing but that text: not the
      selected role (even the sentinel), not the other selections, not the
      profile loaded with the page. */
  lemma CustomPathIgnoresSelections(page1: StoredProfile, page2: StoredProfile, form1: Form, form2: Form,
                                    session: Session, world: World)
    requires HasCustomText(form1)
    requires form1.newCurrentSkill == form2.newCurrentSkill && form1.newTargetSkill == form2.newTargetSkill
    ensures Submit(page1, form1, session, world) == Submit(page2, form2, session, world)
  {
  }

  /** Submitting with no custom text and the sentinel role calls nothing and
      leaves the session as it was. */
  lemma SentinelRejected(page: StoredProfile, form: Form, session: Session, world: World)
    requires !HasCustomText(form) && form.targetRole == SelectRole
    ensures Submit(page, form, session, world) == Step(RoleRequired, [], session, None)
  {
  }

  /** No save ever clears the analysis: every saved record carries the
      prior record's analysis, or the context this very step produced. */
  lemma AnalysisNeverCleared(page: StoredProfile, form: Form, session: Session, world: World)
    ensures forall p | p in Saves(Submit(page, form, session, world).calls) ::
      p.analysis == Prior(page, form, world).analysis
      || (Submit(page, form, session, world).outcome.AnalysisReady?
          && p.analysis == Some(Submit(page, form, session, world).outcome.context))
  {
  }

  /** A ready analysis means the pipeline returned that context, the
      record was saved twice (the second time identical but for the new
      context), and the session now holds the context. */
  lemma AnalysisReadySavesTwice(page: StoredProfile, form: Form, session: Session, world: World)
    requires Submit(page, form, session, world).outcome.AnalysisReady?
    ensures var r := Submit(page, form, session, world);
      && world.pipeline == PipelineOk(r.outcome.context)
      && Saves(r.calls) == [MainRecord(page, form, world), MainRecord(page, form, world).(analysis := Some(r.outcome.context))]
      && r.session == session.(analysis := Some(r.outcome.context))
  {
    var r := Submit(page, form, session, world);
    assert !HasCustomText(form) && form.targetRole != SelectRole;
    assert r == MainPath(page, form, session, world);
  }

  /** A failed analysis leaves exactly the first save behind and the
      session as it was. */
  lemma AnalysisFailedSavesOnce(page: StoredProfile, form: Form, session: Session, world: World)
    requires Submit(page, form, session, world).outcome == AnalysisFailed
    ensures Saves(Submit(page, form, session, world).calls) == [MainRecord(page, form, world)]
    ensures Submit(page, form, session, world).session == session
  {
    var r := Submit(page, form, session, world);
    assert !HasCustomText(form) && form.targetRole != SelectRole;
    assert r == MainPath(page, form, session, world);
  }

  /** The analysis stage without an upload: the stored text is written to
      the well-known path before the pipeline reads it. */
  lemma AnalyzeWritesStoredText(page: StoredProfile, form: Form, record: TargetProfile, session: Session,
                                world: World, before: seq<Call>)
    requires form.upload.None? && HasText(page.record.resumeText)
    ensures var r := Analyze(page, form, record, session, world, before);
      && |r.calls| >= |before| + 1
      && r.calls[|before|] == WriteResumeText(DefaultResumePath, page.record.resumeText.value)
      && (world.resumeWriteOk ==>
            |r.calls| >= |before| + 2
            && r.calls[|before| + 1] == RunPipeline(PipelineInputOf(page, form), DefaultResumePath, false, true))
      && (!world.resumeWriteOk ==> |r.calls| == |before| + 1 && r.outcome == AnalysisFailed)
  {
    var writes := [WriteResumeText(DefaultResumePath, page.record.resumeText.value)];
    assert ResumePath(form, world.parse) == DefaultResumePath;
    if world.resumeWriteOk {
      var stage := PipelineStage(PipelineInputOf(page, form), DefaultResumePath, record, session, world.pipeline, before + writes);
      assert Analyze(page, form, record, session, world, before) == stage;
      assert before + writes <= stage.calls;
    }
  }

  /** Without an upload, stored resume text is written to the well-known
      path right after the save and before the pipeline, which then reads
      that path with a forced refresh; a failed write ends the analysis. */
  lemma StoredResumeWrittenBeforePipeline(page: StoredProfile, form: Form, session: Session, world: World)
    requires !HasCustomText(form) && form.targetRole != SelectRole
    requires form.upload.None? && HasText(page.record.resumeText) && world.save.success
    ensures var r := Submit(page, form, session, world);
      && |r.calls| >= 2
      && r.calls[0] == SaveProfile(MainRecord(page, form, world))
      && r.calls[1] == WriteResumeText(DefaultResumePath, page.record.resumeText.value)
      && (world.resumeWriteOk ==>
            |r.calls| >= 3 && r.calls[2] == RunPipeline(PipelineInputOf(page, form), DefaultResumePath, false, true))
      && (!world.resumeWriteOk ==> |r.calls| == 2 && r.outcome == AnalysisFailed)
  {
    var record := MainRecord(page, form, world);
    var saved := [SaveProfile(record)];
    SubmitIsMainPath(page, form, session, world);
    MainPathAnalyzesStoredText(page, form, session, world);
    AnalyzeWritesStoredText(page, form, record, session, world, saved);
  }

  /** Without an upload, a saved record with stored resume text goes on to
      the analysis stage right after its save. */
  lemma MainPathAnalyzesStoredText(page: StoredProfile, form: Form, session: Session, world: World)
    requires form.upload.None? && HasText(page.record.resumeText) && world.save.success
    ensures var record := MainRecord(page, form, world);
      MainPath(page, form, session, world) == Analyze(page, form, record, session, world, [SaveProfile(record)])
  {
    assert ResolveResume(page.record, form.upload, world.parse).text == page.record.resumeText;
  }

  /** After an upload parsed into text, the pipeline reads the parser's text
      file: the calls are the parse, the save of the assembled record, then
      the pipeline on that file with the page's input, uncached and
      refreshed. */
  lemma UploadedResumeReachesPipeline(page: StoredProfile, form: Form, session: Session, world: World)
    requires !HasCustomText(form) && form.targetRole != SelectRole
    requires form.upload.Some? && world.parse.Parsed? && world.parse.text != [] && world.save.success
    ensures var r := Submit(page, form, session, world);
      && |r.calls| >= 3
      && r.calls[..2] == [ParseResume(form.upload.value), SaveProfile(MainRecord(page, form, world))]
      && r.calls[2] == RunPipeline(PipelineInputOf(page, form), world.parse.textPath, false, true)
  {
    var record := MainRecord(page, form, world);
    var before := [ParseResume(form.upload.value), SaveProfile(record)];
    SubmitIsMainPath(page, form, session, world);
    MainPathAnalyzesUpload(page, form, session, world);
    AnalyzeUploadCalls(page, form, record, session, world, before);
  }

  /** After an upload parsed into text, a successful save goes straight on
      to the analysis stage. */
  lemma MainPathAnalyzesUpload(page: StoredProfile, form: Form, session: Session, world: World)
    requires form.upload.Some? && world.parse.Parsed? && world.parse.text != [] && world.save.success
    ensures var record := MainRecord(page, form, world);
      MainPath(page, form, session, world)
        == Analyze(page, form, record, session, world, [ParseResume(form.upload.value), SaveProfile(record)])
  {
    assert ResolveResume(page.record, form.upload, world.parse).text == Some(world.parse.text);
    assert [ParseResume(form.upload.value)] + [SaveProfile(MainRecord(page, form, world))]
        == [ParseResume(form.upload.value), SaveProfile(MainRecord(page, form, world))];
  }

  /** With an upload nothing is written, and the pipeline call that follows
      `before` reads the parser's text file. */
  lemma AnalyzeUploadCalls(page: StoredProfile, form: Form, record: TargetProfile, session: Session,
                           world: World, before: seq<Call>)
    requires form.upload.Some? && world.parse.Parsed?
    ensures var r := Analyze(page, form, record, session, world, before);
      && |r.calls| > |before| && r.calls[..|before|] == before
      && r.calls[|before|] == RunPipeline(PipelineInputOf(page, form), world.parse.textPath, false, true)
  {
    assert ResumePath(form, world.parse) == world.parse.textPath;
    assert before + [] == before;
    var stage := PipelineStage(PipelineInputOf(page, form), world.parse.textPath, record, session, world.pipeline, before);
    assert Analyze(page, form, record, session, world, before) == stage;
  }

  /** After a failed parse of an upload the record to save has both resume
      fields cleared, whatever the loaded profile held. */
  lemma ParseFailureClearsResume(page: StoredProfile, form: Form, world: World)
    requires form.upload.Some? && world.parse.ParseError?
    ensures MainRecord(page, form, world).resumeText.None?
    ensures MainRecord(page, form, world).resumeFilename.None?
  {
    assert ResolveResume(page.record, form.upload, world.parse) == ResumeFields(None, None);
  }

  /** Without custom text and with a real role, the submit is the main path. */
  lemma SubmitIsMainPath(page: StoredProfile, form: Form, session: Session, world: World)
    requires !HasCustomText(form) && form.targetRole != SelectRole
    ensures Submit(page, form, session, world) == MainPath(page, form, session, world)
  {
  }

  /** A failed parse of an upload is reported, does not stop the save, and
      no analysis follows it. */
  lemma ParseFailureStillSaves(page: StoredProfile, form: Form, session: Session, world: World)
    requires !HasCustomText(form) && form.targetRole != SelectRole
    requires form.upload.Some? && world.parse.ParseError?
    ensures var r := Submit(page, form, session, world);
      && r.calls == [ParseResume(form.upload.value), SaveProfile(MainRecord(page, form, world))]
      && r.parseError == Some(world.parse.message)
      && r.outcome == if world.save.success then SavedWithoutAnalysis else SaveFailed(world.save.message)
  {
    SubmitIsMainPath(page, form, session, world);
    ParseFailureMainPath(page, form, session, world);
  }

  lemma ParseFailureMainPath(page: StoredProfile, form: Form, session: Session, world: World)
    requires form.upload.Some? && world.parse.ParseError?
    ensures var r := MainPath(page, form, session, world);
      && r.calls == [ParseResume(form.upload.value), SaveProfile(MainRecord(page, form, world))]
      && r.parseError == Some(world.parse.message)
      && r.outcome == if world.save.success then SavedWithoutAnalysis else SaveFailed(world.save.message)
  {
    assert !HasText(ResolveResume(page.record, form.upload, world.parse).text);
  }

  /** Submitting the same custom text again, after the first save was
      loaded back, saves the very same record: a custom skill is added once. */
  lemma CustomSubmitIdempotent(page: StoredProfile, form: Form, session: Session, world: World,
                               session2: Session, world2: World)
    requires HasCustomText(form)
    requires world2.reloaded == Saves(Submit(page, form, session, world).calls)[0]
    ensures Saves(Submit(page, form, session2, world2).calls) == Saves(Submit(page, form, session, world).calls)
  {
    var first := ReconcileCustom(world.reloaded, form.newCurrentSkill, form.newTargetSkill);
    assert Saves(Submit(page, form, session, world).calls) == [first];
    ReconcileCustomIdempotent(world.reloaded, form.newCurrentSkill, form.newTargetSkill);
  }

}
