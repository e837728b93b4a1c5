# Career goals page: a Dafny model

This project models the decision and merge logic of the career-goals page of
a career-coaching web application (`pages/career_coach.py`). On that page a
signed-in user states a target role, motivation, current and target skills,
a learning mode and a timeframe, optionally uploads a resume, and submits.
The model covers:

- **Option resolution.** The fixed skill taxonomy is flattened into
  `"Category: Skill"` identifiers. Stored skills are split into taxonomy
  skills and custom skills. The two multiselects offer the sorted,
  duplicate-free union of a base list and the custom skills:
  - the current-skill base is the whole flattened list;
  - the target-skill base is the role's entry in the role map, or the whole
    flattened list for a role without an entry and for the "Select Target
    Role" sentinel.
- **Form defaults.** Each select box opens on the stored value when that value
  is one of its options, otherwise on a fixed fallback. A "Flexible"
  timeframe shows a months input; its starting value is the stored months, or
  12 when none are stored.
- **The submit handler**, modelled as one pure step. A submit does one of
  three things:
  - **Custom skills.** Text in either custom-skill box takes precedence. The
    freshly reloaded record is copied, each trimmed custom skill is appended
    when it is not already present, and the record is saved. The form
    generation advances only when that save succeeds.
  - **Rejection.** Otherwise the sentinel role is rejected, and nothing is
    called.
  - **The main path.** Otherwise the page builds the record from the form:
    - the resume fields are kept without an upload, replaced after a
      successful parse, and cleared after a failed one;
    - the stored analysis is carried forward.

    The page then saves that record. After a successful save, when resume
    text is present, it runs the analysis pipeline with `use_cache=False` and
    `force_refresh=True`. A returned context is saved a second time and handed
    to the session. A failed analysis saves nothing more. A failed parse of
    an upload is reported whatever follows, since the save still goes ahead.

The outside calls (profile load and save, resume parsing, writing the stored
resume text, the pipeline) are inputs to the step (`Submission.World`). The
step returns its outcome, the calls it made in order, the next session, and
the parse error it reported, if any (`Submission.Step`).

Python behaviour that the model spells out:

- `str.strip()` uses Python's whitespace set (`SkillText.IsSpace`).
- `sorted` on strings compares by code point (`StringOrder.Below`).
- Truthiness is modelled explicitly: for an optional string (`Profiles.HasText`),
  and for the stored months (`FormDefaults.DefaultMonths`).
- A key that is absent from a stored record and a key stored as null are both
  `None` in the record (`Profiles.TargetProfile`). For every record field the
  model reads, both give the same behaviour, except a null skill list (see
  "Left out").
- `profile.get("current_role", "")` and `profile.get("experience", "N/A")`
  (lines 408 and 412) do tell the two apart: the default applies only to a
  missing key, and a stored null reaches the pipeline as `None`. These two
  fields are kept as absent, null or present (`Profiles.Field`).

Two behaviours of the code worth knowing:

- The pipeline's `role` and `experience` are read from the same loaded
  target profile as the rest of the record (lines 408 and 412).
- Custom-skill text is handled even when the sentinel role is selected,
  because the custom-text test (line 305) comes before the role test
  (line 348). A submit with the sentinel and custom text saves the reloaded
  record with the custom skills added; only without custom text is the
  sentinel rejected with no save.

Modules, one per file:

- `Wrappers`: `Option`.
- `SkillText`: strip.
- `StringOrder`: string order, sortedness, and absence of duplicates.
- `SkillMerge`: `merge_skill_lists`.
- `Taxonomy`: the fixed tables, the flattening, and the role map.
- `SkillOptions`: option resolution.
- `FormDefaults`: default indices and the timeframe rule.
- `Profiles`: the stored records.
- `Reconcile`: the custom-skill record and the main-path record.
- `Submission`: the submit step.
- `NextRender`: what the page offers after a custom-skill save.

## Model

| member | source | states |
|---|---|---|
| SkillText.NormalizeSkill | pages/career_coach.py:192-193 | the result has no Python whitespace at either end and is empty exactly when the input is all whitespace |
| SkillText.NormalizeIsSlice | pages/career_coach.py:192-193 | the stripped text is a contiguous piece of the input, and what was cut from either end is all whitespace |
| SkillText.NormalizePadded | pages/career_coach.py:192-193 | padding a text with whitespace on either side does not change its stripped form |
| SkillText.NormalizeIdempotent | pages/career_coach.py:192-193 | stripping twice is the same as stripping once |
| SkillText.NormalizeTrimmed | pages/career_coach.py:192-193 | text with no whitespace at either end is left as it is |
| StringOrder.Below | pages/career_coach.py:201 | the order `sorted` uses on strings: no string is below itself and a proper prefix is below every longer string it starts; with BelowTransitive and BelowTotal it is a strict total order |
| StringOrder.SortedUnique | pages/career_coach.py:201 | two strictly sorted lists with the same members are equal, so the sorted union is determined by its members alone |
| SkillMerge.MergeSkillLists | pages/career_coach.py:196-201 | the merge is strictly sorted and free of duplicates, and holds exactly the members of the input lists, with empty lists contributing nothing |
| SkillMerge.MergeTwo | pages/career_coach.py:196-201 | for two lists the merge is sorted and its members are exactly those of either list |
| SkillMerge.MergeIsSortedUnion | pages/career_coach.py:196-201 | any strictly sorted list with the inputs' members is the merge |
| SkillMerge.MergeCommutes | pages/career_coach.py:196-201 | the order of the two input lists does not change the merge |
| SkillMerge.MergeAbsorbs | pages/career_coach.py:196-201 | merging the merge of `a` and `b` with `b` again gives the same merge, so option lists are stable |
| Taxonomy.Flatten | pages/career_coach.py:128-131 | the flattened list holds exactly the `"Category: Skill"` identifiers of the taxonomy's skills |
| Taxonomy.RoleSkillsMap | pages/career_coach.py:134-183 | every role with an entry is in the role list, and the entry is the whole flattened list exactly for the sentinel |
| SkillOptions.Unlisted | pages/career_coach.py:210-211 | the custom partition holds exactly the stored skills outside the identifier list, and is no longer than the stored list |
| SkillOptions.CurrentOptionsOver | pages/career_coach.py:213 | the current-skill options are sorted without duplicates and hold exactly the identifiers and the stored skills |
| SkillOptions.TargetOptionsOver | pages/career_coach.py:214-217 | the target-skill options are sorted without duplicates and hold exactly the base skills and the stored skills that are not identifiers |
| SkillOptions.FullBaseSameOptions | pages/career_coach.py:213-217 | with the whole flattened list as base, the target options equal the current-skill options for the same stored list |
| SkillOptions.BaseSkillsOver | pages/career_coach.py:275 | `ROLE_SKILLS_MAP.get(role, FLATTENED_SKILLS)`: an absent role, a role without an entry and the sentinel get the flattened list; a role with a list of its own gets exactly that list |
| SkillOptions.FallbackTargetOptionsOver | pages/career_coach.py:275-276 | a role that falls back is offered every identifier, and the list is nonempty when there are identifiers |
| SkillOptions.ListedRoleWithCustomTargets | pages/career_coach.py:275-276 | for a mapped role whose stored target skills are all custom, the options are sorted and hold exactly the role's skills and the stored ones |
| SkillOptions.CurrentOptions | pages/career_coach.py:213 | the page's current-skill options are sorted without duplicates and hold exactly the taxonomy identifiers and the stored current skills |
| SkillOptions.TargetOptions | pages/career_coach.py:275-276 | the page's target-skill options are sorted without duplicates and hold exactly the role's base skills and the stored custom target skills |
| SkillOptions.StoredCurrentSkillsOffered | pages/career_coach.py:207-213 | every stored current skill is among the current-skill options |
| SkillOptions.StoredCustomTargetsOffered | pages/career_coach.py:275-276 | every stored custom target skill is offered, whatever the role |
| SkillOptions.TaxonomyTargetOutsideRoleDropped | pages/career_coach.py:275-276 | a stored taxonomy target skill outside the role's base is not offered |
| SkillOptions.FlattenedNonEmpty | pages/career_coach.py:128-131 | the flattened list is nonempty |
| SkillOptions.FallbackRoles | pages/career_coach.py:134-183 | the sentinel, Product Manager, DevOps Engineer, Cloud Architect, Cybersecurity Specialist and BI Developer all fall back to the flattened list |
| SkillOptions.FallbackTargetOptions | pages/career_coach.py:275-276 | the target options of a role that falls back are never empty |
| SkillOptions.FallbackTargetOptionsAreCurrentOptions | pages/career_coach.py:213-217 | for a role that falls back, the target options are exactly the current-skill options |
| SkillOptions.ShortTextNotIdentifier | pages/career_coach.py:128-131 | no taxonomy identifier is shorter than sixteen characters |
| SkillOptions.ShortTextIsCustom | pages/career_coach.py:210-211 | text shorter than sixteen characters, such as "Custom: Rust", is always a custom skill |
| SkillOptions.DataAnalystEntry | pages/career_coach.py:135-139 | "Data Analyst" maps to its own six-skill list |
| SkillOptions.DataAnalystBase | pages/career_coach.py:275 | the Data Analyst's base list is its own six skills |
| SkillOptions.ShortSkillAloneIsCustom | pages/career_coach.py:211 | a single stored skill shorter than sixteen characters is its own custom partition |
| SkillOptions.DataAnalystOffersOnly | pages/career_coach.py:275-276 | a Data Analyst with one short stored target skill is offered only the Data Analyst skills and that skill |
| SkillOptions.DataAnalystOffersAll | pages/career_coach.py:275-276 | a Data Analyst with one short stored target skill is offered every Data Analyst skill and that skill |
| SkillOptions.DataAnalystWithShortCustomTarget | pages/career_coach.py:275-276 | a Data Analyst whose only stored target skill is short, such as "Custom: Rust", is offered exactly the six Data Analyst skills and that skill, sorted, each once |
| FormDefaults.IndexOf | pages/career_coach.py:229 | `list.index` returns the first position holding the value |
| FormDefaults.DefaultIndex | pages/career_coach.py:229-233 | a box opens on the stored value when it is an option, and on the fallback position otherwise |
| FormDefaults.RoleIndex | pages/career_coach.py:223-229 | the role box opens on the stored role when it is listed, otherwise on the sentinel |
| FormDefaults.LearningIndex | pages/career_coach.py:225-230 | the learning-mode box opens on the stored mode when it is listed, otherwise on "Self-paced" |
| FormDefaults.TimeframeOption | pages/career_coach.py:232 | the "Flexible" special case maps every stored timeframe to itself |
| FormDefaults.TimeframeIndex | pages/career_coach.py:232-233 | the timeframe box opens on the stored timeframe when it is listed, otherwise on "6 months" |
| FormDefaults.DefaultMonths | pages/career_coach.py:255 | the months input starts at the stored months, or at 12 when none or zero are stored |
| FormDefaults.FinalTimeframe | pages/career_coach.py:252-260 | the saved timeframe is the selected option, and months are saved exactly when it is "Flexible", as the input's value |
| FormDefaults.TimeframeRoundTrip | pages/career_coach.py:226-260 | saving a timeframe and reopening the form restores the same option and, for "Flexible", the same months |
| Reconcile.HasCustomTextMeans | pages/career_coach.py:305 | the custom path is taken exactly when either custom-skill box holds something other than whitespace |
| Reconcile.AddCustomSkill | pages/career_coach.py:324-334 | the list only grows, by at most the stripped text; it is unchanged when that text is empty or already present; it gains the text exactly when the text is nonempty and new; and it stays duplicate-free |
| Reconcile.AddCustomSkillIdempotent | pages/career_coach.py:324-334 | adding the same custom text twice equals adding it once |
| Reconcile.AddCustomSkillOnce | pages/career_coach.py:325-328 | after adding new nonempty text, its stripped form occurs exactly once |
| Reconcile.ReconcileCustom | pages/career_coach.py:308-334 | every field of the reloaded record is copied; each skill list keeps its entries and gains at most its stripped custom text; a list whose text is empty or already present is left exactly as it was; a duplicate-free list stays duplicate-free |
| Reconcile.ReconcileCustomIdempotent | pages/career_coach.py:308-334 | reconciling twice with the same text yields the record of reconciling once |
| Reconcile.NegotiationStoredOnce | pages/career_coach.py:324-328 | the padded skill "  Negotiation  " is stored once, trimmed, however often it is submitted |
| Reconcile.ResolveResume | pages/career_coach.py:351-369 | no upload keeps the stored resume fields, a successful parse sets the parsed text and the upload's name, and a failed parse clears both |
| Reconcile.UploadReplacesBothFields | pages/career_coach.py:354-369 | after an upload the resume text and file name are both set, to the upload's name, or both cleared |
| Reconcile.AssembleMain | pages/career_coach.py:372-383 | the main record holds the form's selections and the resolved resume fields, carries the stored analysis forward, and has months exactly for "Flexible" |
| Reconcile.MainRecordReopensForm | pages/career_coach.py:372-383 | reopening the form on a main-path record starts every select box and the months input on the submitted values |
| Submission.Saves | pages/career_coach.py:386-437 | the saved records are exactly the records of the save calls |
| Submission.SavesAppend | pages/career_coach.py:435-437 | the saves of two call sequences in a row are the saves of each, in order |
| Submission.CustomPath | pages/career_coach.py:336-345 | the custom-skill path saves the reconciled record once, and advances the form generation exactly when that save succeeds |
| Submission.PipelineInputOf | pages/career_coach.py:406-416 | the pipeline gets the form's selections; role and experience are the loaded profile's values, `""` and `"N/A"` when the key is missing, and `None` when it is stored as null |
| Submission.ResumePath | pages/career_coach.py:419 | the pipeline reads the parser's text file after an upload and "data/text.txt" otherwise |
| Submission.PipelineStage | pages/career_coach.py:426-447 | the pipeline runs with `use_cache=False` and `force_refresh=True`; success saves the same record with the new context and hands it to the session; failure saves nothing more |
| Submission.Analyze | pages/career_coach.py:418-447 | without an upload the stored text is written first and a failed write ends the analysis; the pipeline is called unless that write failed |
| Submission.AfterSave | pages/career_coach.py:388-451 | a failed save is reported with its message; without resume text nothing follows; otherwise the analysis runs |
| Submission.MainPath | pages/career_coach.py:348-392 | the main path parses any upload and saves the assembled record first; it analyses exactly when the save succeeded and resume text is present; a second save follows only with a ready analysis; a failed parse is reported with its message |
| Submission.Submit | pages/career_coach.py:302-454 | nothing is called exactly when the sentinel is submitted without custom text; the form generation advances only after a successful custom save; every pipeline call is uncached and refreshed; the session analysis changes only to a ready context; a parse error is reported exactly when the main path's upload failed to parse |
| Submission.CustomPathIgnoresSelections | pages/career_coach.py:305 | with custom text the step depends only on that text, not on the role (even the sentinel) or the other selections |
| Submission.SentinelRejected | pages/career_coach.py:453-454 | the sentinel without custom text calls nothing and leaves the session unchanged |
| Submission.AnalysisNeverCleared | pages/career_coach.py:382-436 | every saved record carries the prior analysis or the context this submit produced |
| Submission.AnalysisReadySavesTwice | pages/career_coach.py:426-443 | a ready analysis comes from the pipeline, is preceded by the first save and followed by an identical save with the context, and is put in the session |
| Submission.AnalysisFailedSavesOnce | pages/career_coach.py:445-447 | a failed analysis leaves only the first save and the session unchanged |
| Submission.AnalyzeUploadCalls | pages/career_coach.py:417-431 | with an upload nothing is written, and the call right after the earlier calls is the pipeline on the parser's text file with the page's input, uncached and refreshed |
| Submission.MainPathAnalyzesUpload | pages/career_coach.py:386-419 | after an upload parsed into text, a successful save goes straight on to the analysis stage |
| Submission.UploadedResumeReachesPipeline | pages/career_coach.py:405-431 | after an upload parsed into text and a successful save, the calls are the parse, the save of the assembled record, then the pipeline on the parser's text file with the form's selections |
| Submission.AnalyzeWritesStoredText | pages/career_coach.py:419-431 | without an upload, the stored text is written to "data/text.txt" immediately before the pipeline reads that path |
| Submission.MainPathAnalyzesStoredText | pages/career_coach.py:386-419 | without an upload, a successful save of a record whose stored resume text is present goes straight on to the analysis stage |
| Submission.StoredResumeWrittenBeforePipeline | pages/career_coach.py:386-431 | without an upload the calls are the save, the write of the stored text, then the pipeline on "data/text.txt"; a failed write ends the analysis |
| Submission.ParseFailureClearsResume | pages/career_coach.py:366-381 | after a failed parse both resume fields of the saved record are empty |
| Submission.SubmitIsMainPath | pages/career_coach.py:305-348 | without custom text and with a real role the submit is the main path |
| Submission.ParseFailureStillSaves | pages/career_coach.py:366-392 | a failed parse is reported, and is followed by the save and by no analysis |
| Submission.ParseFailureMainPath | pages/career_coach.py:366-392 | on the main path a failed parse leads to exactly the parse call and one save, and its message is reported |
| Submission.CustomSubmitIdempotent | pages/career_coach.py:308-345 | resubmitting the same custom text over the saved record saves the same record again |
| NextRender.AddedCurrentSkillOffered | pages/career_coach.py:325-341 | after a custom current skill is saved, the next render offers it and every current skill stored before |
| NextRender.AddedTargetSkillOffered | pages/career_coach.py:331-341 | a saved custom target skill is offered next time exactly when it is in the role's base or is not a taxonomy identifier |

## Left out

- Rendering, CSS, the header, the sidebar and logout, the login redirect, and the spinner with its `time.sleep` calls (lines 13-61, 241-296, 394-404). These are display and timing. `st.rerun` and `st.switch_page` appear as the outcomes `CustomSkillsAdded` and `AnalysisReady`.
- A pipeline that returns `None` without raising: lines 436-440 would then save `analysis_output = None` and hand `None` to the session. `Submission.PipelineResult` assumes a successful run always returns a context, and `Submission.AnalysisNeverCleared` relies on that.
- The contents of `load_target_profile`, `save_target_profile`, `parse_and_save_text`, the resume file read and write, and `run_agentic_pipeline`. They are other modules and file I/O. Only their results are modelled, as inputs in `Submission.World`: the reloaded record, the save's success and message, the parse's text path and text or its error, whether the write succeeded, and the pipeline's context or failure.
- The result of the second save (line 437). The code ignores it, so the model records the call but not its success.
- A stored skill list that is null: the comprehensions at lines 210-211 would raise on it before the form is shown, and `.copy()` at lines 314-315 would raise on a null list in the reloaded record. The model's records always hold lists.
- The `has_resume` flag and the button label it picks (lines 292-293), and the "previously uploaded" notice (lines 289-290). They only change displayed text.
- The widget library's checks on its arguments: a multiselect default that is not among the options, and a number input's start value outside 1..60. The model states which stored skills are or are not offered (`SkillOptions.TaxonomyTargetOutsideRoleDropped`, `NextRender.AddedTargetSkillOffered`) but not what the library does with a default it does not offer.
- The motivation box's starting value (line 224). The box's content is a form input. A stored null, unlike a missing key, would start it at `None` rather than `""`.
- The months input's value when the stored months are not an integer: `int(...)` at line 255 truncates a stored float and raises on a non-numeric string. Stored months are modelled as integers.
- NextRender.AddedCurrentSkillOffered, NextRender.AddedTargetSkillOffered: stated over any identifier list `known`. On the page it is the flattened taxonomy, and `SkillOptions.CurrentOptions` and `SkillOptions.TargetOptions` are exactly these definitions with `known := FlattenedSkills`.
- The page's start-up (`startup.py`) and the other pages: page registration and session start-up only.
