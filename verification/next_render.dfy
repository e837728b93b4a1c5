/** What the page offers when it renders again after a successful
    custom-skill save: the record `Submission.CustomPath` saved,
    `ReconcileCustom` of the reloaded record, is the profile the next render
    loads. The statements hold for any identifier list `known`; the page's
    is `FlattenedSkills`, for which `CurrentOptionsOver(known, _)` is
    `SkillOptions.CurrentOptions` and `TargetOptionsOver(BaseSkillsOver(known,
    role), known, _)` is `SkillOptions.TargetOptions(role, _)`. */
module NextRender {
  import opened Wrappers
  import opened SkillText
  import opened Taxonomy
  import opened Profiles
  import opened SkillOptions
  import opened Reconcile

  /** A custom current skill is offered among the current-skill options the
      next time the page renders, along with every current skill the
      reloaded record already held. */
  lemma AddedCurrentSkillOffered(known: seq<string>, existing: TargetProfile, newCurrent: string, newTarget: string)
    requires NormalizeSkill(newCurrent) != []
    ensures var saved := ReconcileCustom(existing, newCurrent, newTarget);
      && NormalizeSkill(newCurrent) in CurrentOptionsOver(known, saved.currentSkills)
      && forall s | s in existing.currentSkills :: s in CurrentOptionsOver(known, saved.currentSkills)
  {
    var saved := ReconcileCustom(existing, newCurrent, newTarget);
    assert NormalizeSkill(newCurrent) in saved.currentSkills;
  }

  /** A custom target skill is offered under the saved role the next time
      the page renders exactly when it is one of that role's base skills or
      not a taxonomy identifier at all: a taxonomy identifier from another
      role is saved but not offered. */
  lemma AddedTargetSkillOffered(known: seq<string>, existing: TargetProfile, newCurrent: string, newTarget: string)
    requires NormalizeSkill(newTarget) != []
    ensures var saved := ReconcileCustom(existing, newCurrent, newTarget);
      var skill := NormalizeSkill(newTarget);
      var base := BaseSkillsOver(known, saved.targetRole);
      && skill in saved.targetSkills
      && (skill in TargetOptionsOver(base, known, saved.targetSkills) <==> skill in base || skill !in known)
  {
    var saved := ReconcileCustom(existing, newCurrent, newTarget);
    assert NormalizeSkill(newTarget) in saved.targetSkills;
  }
}
