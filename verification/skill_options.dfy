/** The option lists of the two skill multiselects: the taxonomy (or the
    chosen role's share of it) merged with the custom skills the stored
    profile already holds. */
module SkillOptions {
  import opened Wrappers
  import opened StringOrder
  import opened SkillMerge
  import opened Taxonomy

  /** The stored skills that are not in `known`, in stored order. */
  function Unlisted(stored: seq<string>, known: seq<string>): (r: seq<string>)
    ensures |r| <= |stored|
    ensures forall y :: y in r <==> y in stored && y !in known
  {
    if |stored| == 0 then []
    else
      var rest := Unlisted(stored[1..], known);
      assert forall y :: y in stored <==> y == stored[0] || y in stored[1..];
      if stored[0] in known then rest else [stored[0]] + rest
  }

  /** The current-skill options over the identifier list `known`: every
      identifier and every stored skill, sorted, each once. */
  function CurrentOptionsOver(known: seq<string>, stored: seq<string>): (r: seq<string>)
    ensures StrictlySorted(r)
    ensures forall y :: y in r <==> y in known || y in stored
  {
    MergeTwo(known, Unlisted(stored, known));
    MergeSkillLists([known, Unlisted(stored, known)])
  }

  /** The target-skill options over the identifier list `known` for a role
      whose base list is `base`: the base skills and the stored skills that
      are not identifiers, sorted, each once. A stored identifier outside
      the base is not offered. */
  function TargetOptionsOver(base: seq<string>, known: seq<string>, stored: seq<string>): (r: seq<string>)
    ensures StrictlySorted(r)
    ensures forall y :: y in r <==> y in base || (y in stored && y !in known)
  {
    MergeTwo(base, Unlisted(stored, known));
    MergeSkillLists([base, Unlisted(stored, known)])
  }

  /** When the base is the whole identifier list, the target options are
      exactly the current-skill options built from the same stored list. */
  lemma FullBaseSameOptions(known: seq<string>, stored: seq<string>)
    ensures TargetOptionsOver(known, known, stored) == CurrentOptionsOver(known, stored)
  {
    SortedUnique(TargetOptionsOver(known, known, stored), CurrentOptionsOver(known, stored));
  }

  /** The role gets the whole flattened list as its base: it is absent, has
      no entry in the role map, or its entry is the flattened list. */
  predicate FallsBack(role: Option<string>) {
    role.None? || RoleSkillsMap(role.value).None? || RoleSkillsMap(role.value) == Some(AllFlattened)
  }

  /** `ROLE_SKILLS_MAP.get(role, FLATTENED_SKILLS)`, with `known` standing
      for the flattened list. A role that is absent (read with the sentinel
      as default) or null in the stored record gets the flattened list, as
      does any role without an entry and the sentinel, whose entry is the
      flattened list itself; a role with a list of its own gets that list. */
  function BaseSkillsOver(known: seq<string>, role: Option<string>): (r: seq<string>)
    ensures FallsBack(role) ==> r == known
    ensures !FallsBack(role) ==> RoleSkillsMap(role.value) == Some(Listed(r))
  {
    match role
    case None => known
    case Some(name) =>
      match RoleSkillsMap(name)
      case Some(Listed(skills)) => skills
      case Some(AllFlattened) => known
      case None => known
  }

  /** A role that falls back is offered every identifier, whatever is
      stored, so never an empty list when there are identifiers. */
  lemma FallbackTargetOptionsOver(known: seq<string>, role: Option<string>, stored: seq<string>)
    requires FallsBack(role)
    ensures forall x | x in known :: x in TargetOptionsOver(BaseSkillsOver(known, role), known, stored)
    ensures |known| > 0 ==> |TargetOptionsOver(BaseSkillsOver(known, role), known, stored)| > 0
  {
    if |known| > 0 {
      assert known[0] in TargetOptionsOver(known, known, stored);
    }
  }

  /** A role mapped to its own list, whose stored target skills are none of
      them identifiers, is offered exactly its list and the stored skills,
      sorted and each once. */
  lemma ListedRoleWithCustomTargets(known: seq<string>, role: Option<string>, skills: seq<string>,
                                    stored: seq<string>)
    requires role.Some? && RoleSkillsMap(role.value) == Some(Listed(skills))
    requires forall x | x in stored :: x !in known
    ensures StrictlySorted(TargetOptionsOver(BaseSkillsOver(known, role), known, stored))
    ensures forall y :: y in TargetOptionsOver(BaseSkillsOver(known, role), known, stored) <==> y in skills || y in stored
  {
  }

  /** The page's custom skills among the stored ones: those that are not
      taxonomy identifiers. */
  function CustomSkills(stored: seq<string>): seq<string> {
    Unlisted(stored, FlattenedSkills)
  }

  /** The page's base list of target skills for `role`. */
  function BaseTargetSkills(role: Option<string>): seq<string> {
    BaseSkillsOver(FlattenedSkills, role)
  }

  /** The page's current-skill options: every taxonomy identifier and every
      stored skill, sorted, each once. */
  function CurrentOptions(stored: seq<string>): (r: seq<string>)
    ensures StrictlySorted(r)
    ensures forall y :: y in r <==> y in FlattenedSkills || y in stored
  {
    CurrentOptionsOver(FlattenedSkills, stored)
  }

  /** The page's target-skill options for `role`: the role's base list and
      the stored custom skills, sorted, each once. */
  function TargetOptions(role: Option<string>, stored: seq<string>): (r: seq<string>)
    ensures StrictlySorted(r)
    ensures forall y :: y in r <==> y in BaseTargetSkills(role) || y in CustomSkills(stored)
  {
    TargetOptionsOver(BaseTargetSkills(role), FlattenedSkills, stored)
  }

  /** Every stored current skill is offered again. */
  lemma StoredCurrentSkillsOffered(stored: seq<string>)
    ensures forall s | s in stored :: s in CurrentOptions(stored)
  {
  }

  /** Every stored custom target skill is offered again, whatever the role. */
  lemma StoredCustomTargetsOffered(role: Option<string>, stored: seq<string>)
    ensures forall s | s in stored && s !in FlattenedSkills :: s in TargetOptions(role, stored)
  {
  }

  /** A stored taxonomy identifier outside the role's base is dropped from
      the target options. */
  lemma TaxonomyTargetOutsideRoleDropped(role: Option<string>, stored: seq<string>, s: string)
    requires s in stored && s in FlattenedSkills && s !in BaseTargetSkills(role)
    ensures s !in TargetOptions(role, stored)
  {
  }

  /** The taxonomy has at least one identifier. */
  lemma FlattenedNonEmpty()
    ensures |FlattenedSkills| > 0
  {
    assert SkillTaxonomy[0].skills[0] == "Python";
    assert Identifies(SkillTaxonomy, Qualified(SkillTaxonomy[0].name, SkillTaxonomy[0].skills[0]));
  }

  /** The sentinel and the roles of the role list without an entry fall back. */
  lemma FallbackRoles()
    ensures FallsBack(Some(SelectRole))
    ensures FallsBack(Some("Product Manager"))
    ensures FallsBack(Some("DevOps Engineer"))
    ensures FallsBack(Some("Cloud Architect"))
    ensures FallsBack(Some("Cybersecurity Specialist"))
    ensures FallsBack(Some("BI Developer"))
  {
  }

  /** A role that falls back is offered every taxonomy identifier, so never
      an empty list. */
  lemma FallbackTargetOptions(role: Option<string>, stored: seq<string>)
    requires FallsBack(role)
    ensures |TargetOptions(role, stored)| > 0
  {
    FallbackTargetOptionsOver(FlattenedSkills, role, stored);
    FlattenedNonEmpty();
  }

  /** For a role that falls back, the target options are exactly the
      current-skill options built from the same stored list. */
  lemma FallbackTargetOptionsAreCurrentOptions(role: Option<string>, stored: seq<string>)
    requires FallsBack(role)
    ensures TargetOptions(role, stored) == CurrentOptions(stored)
  {
    FullBaseSameOptions(FlattenedSkills, stored);
  }

  /** No identifier is shorter than sixteen characters, since every category
      name has at least fourteen. */
  lemma ShortTextNotIdentifier(x: string)
    requires |x| < 16
    ensures !Identifies(SkillTaxonomy, x)
  {
    forall c | 0 <= c < |SkillTaxonomy| ensures |SkillTaxonomy[c].name| >= 14 {
    }
  }

  /** Text shorter than sixteen characters is always a custom skill. */
  lemma ShortTextIsCustom(x: string)
    requires |x| < 16
    ensures x !in FlattenedSkills
  {
    ShortTextNotIdentifier(x);
  }

  /** "Data Analyst" is mapped to the Data Analyst list. */
  lemma DataAnalystEntry()
    ensures RoleSkillsMap("Data Analyst") == Some(Listed(DataAnalystSkills))
  {
  }

  /** The Data Analyst's base list is its own six skills. */
  lemma DataAnalystBase(role: Option<string>)
    requires role == Some("Data Analyst")
    ensures BaseTargetSkills(role) == DataAnalystSkills
  {
    DataAnalystEntry();
  }

  /** A single stored skill shorter than sixteen characters is custom. */
  lemma ShortSkillAloneIsCustom(x: string)
    requires |x| < 16
    ensures CustomSkills([x]) == [x]
  {
    ShortTextIsCustom(x);
  }

  /** A Data Analyst whose only stored target skill is not an identifier
      is offered nothing but the Data Analyst skills and that skill. */
  lemma DataAnalystOffersOnly(role: Option<string>, x: string)
    requires role == Some("Data Analyst") && |x| < 16
    ensures forall y | y in TargetOptions(role, [x]) :: y in DataAnalystSkills || y == x
  {
    DataAnalystBase(role);
    ShortSkillAloneIsCustom(x);
  }

  /** ... and is offered every Data Analyst skill and that skill. */
  lemma DataAnalystOffersAll(role: Option<string>, x: string)
    requires role == Some("Data Analyst") && |x| < 16
    ensures forall y | y in DataAnalystSkills || y == x :: y in TargetOptions(role, [x])
  {
    DataAnalystBase(role);
    ShortSkillAloneIsCustom(x);
  }

  /** A Data Analyst whose only stored target skill is shorter than
      sixteen characters, such as "Custom: Rust", is offered exactly the six
      Data Analyst skills and that skill, sorted, each once. */
  lemma DataAnalystWithShortCustomTarget(role: Option<string>, x: string)
    requires role == Some("Data Analyst") && |x| < 16
    ensures StrictlySorted(TargetOptions(role, [x]))
    ensures forall y :: y in TargetOptions(role, [x]) <==> y in DataAnalystSkills || y == x
  {
    DataAnalystOffersOnly(role, x);
    DataAnalystOffersAll(role, x);
  }
}
