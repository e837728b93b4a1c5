/** The fixed option tables of the career-goals page: roles, the skill
    taxonomy, its flattened "Category: Skill" identifiers, the role to skills
    map, learning modes and timeframes. */
module Taxonomy {
  import opened Wrappers

  /** The role select box's first entry, meaning "no role chosen". */
  const SelectRole: string := "Select Target Role"

  const AllRoles: seq<string> := [
    SelectRole,
    "Data Analyst",
    "Data Scientist",
    "Machine Learning Engineer",
    "Data Engineer",
    "AI Researcher",
    "Software Developer",
    "Full Stack Developer",
    "Product Manager",
    "DevOps Engineer",
    "Cloud Architect",
    "Cybersecurity Specialist",
    "BI Developer",
    "Prompt Engineer / GenAI Specialist"
  ]

  /** Category name and its skills, in the dictionary's insertion order. */
  datatype Category = Category(name: string, skills: seq<string>)

  /** The categories of `SKILL_TAXONOMY`, one constant each. */
  const ProgrammingLanguages: Category := Category("Programming Languages",
    ["Python", "R", "Java", "C++", "JavaScript", "SQL", "Scala"])
  const MachineLearningAi: Category := Category("Machine Learning & AI",
    ["Machine Learning", "Deep Learning", "Natural Language Processing (NLP)",
     "Generative AI", "Computer Vision", "Reinforcement Learning",
     "Feature Engineering", "Model Deployment", "MLOps"])
  const DataEngineering: Category := Category("Data Engineering",
    ["ETL", "Data Pipelines", "Apache Spark", "Kafka",
     "Hadoop", "Data Warehousing", "Data Wrangling"])
  const CloudDevOps: Category := Category("Cloud & DevOps",
    ["AWS", "Azure", "GCP", "Docker", "Kubernetes", "Terraform", "CI/CD", "Linux"])
  const DataVisualizationBi: Category := Category("Data Visualization & BI",
    ["Power BI", "Tableau", "Excel", "Matplotlib", "Seaborn", "Plotly", "Dash"])
  const FrameworksLibraries: Category := Category("Frameworks & Libraries",
    ["TensorFlow", "PyTorch", "Scikit-learn", "Keras",
     "Pandas", "NumPy", "OpenCV", "NLTK", "Hugging Face Transformers"])
  const SoftwareDevelopment: Category := Category("Software Development",
    ["React", "Node.js", "Flask", "Django", "Git", "APIs", "Agile Methodology"])
  const OtherTechnicalSkills: Category := Category("Other Technical Skills",
    ["Statistics", "Data Analysis", "Big Data", "Prompt Engineering",
     "Cybersecurity", "System Design"])

  /** `SKILL_TAXONOMY`: the categories in the dictionary's insertion order. */
  const SkillTaxonomy: seq<Category> := [
    ProgrammingLanguages, MachineLearningAi, DataEngineering, CloudDevOps,
    DataVisualizationBi, FrameworksLibraries, SoftwareDevelopment, OtherTechnicalSkills]

  /** The identifier the page shows for a skill of a category. */
  function Qualified(category: string, skill: string): string {
    category + ": " + skill
  }

  function QualifyAll(category: string, skills: seq<string>): (r: seq<string>)
    ensures |r| == |skills|
    ensures forall k | 0 <= k < |r| :: r[k] == Qualified(category, skills[k])
  {
    if |skills| == 0 then [] else [Qualified(category, skills[0])] + QualifyAll(category, skills[1..])
  }

  /** `x` is the identifier of some skill of some category. */
  predicate Identifies(taxonomy: seq<Category>, x: string) {
    exists c, k | 0 <= c < |taxonomy| && 0 <= k < |taxonomy[c].skills| ::
      x == Qualified(taxonomy[c].name, taxonomy[c].skills[k])
  }

  /** The flattening loop: every category's skills, prefixed by the category,
      in order. It holds exactly the identifiers of the taxonomy's skills. */
  function Flatten(taxonomy: seq<Category>): (r: seq<string>)
    ensures forall x :: x in r <==> Identifies(taxonomy, x)
  {
    if |taxonomy| == 0 then []
    else
      var rest := Flatten(taxonomy[1..]);
      var head := QualifyAll(taxonomy[0].name, taxonomy[0].skills);
      FlattenStep(taxonomy, head, rest);
      head + rest
  }

  lemma FlattenStep(taxonomy: seq<Category>, head: seq<string>, rest: seq<string>)
    requires |taxonomy| > 0
    requires head == QualifyAll(taxonomy[0].name, taxonomy[0].skills)
    requires forall x :: x in rest <==> Identifies(taxonomy[1..], x)
    ensures forall x :: x in head + rest <==> Identifies(taxonomy, x)
  {
    forall x ensures x in head + rest <==> Identifies(taxonomy, x) {
      if x in head {
        var k :| 0 <= k < |head| && head[k] == x;
        assert x == Qualified(taxonomy[0].name, taxonomy[0].skills[k]);
      } else if x in rest {
        var c, k :| 0 <= c < |taxonomy[1..]| && 0 <= k < |taxonomy[1..][c].skills|
          && x == Qualified(taxonomy[1..][c].name, taxonomy[1..][c].skills[k]);
        assert taxonomy[c + 1] == taxonomy[1..][c];
      }
      if Identifies(taxonomy, x) {
        var c, k :| 0 <= c < |taxonomy| && 0 <= k < |taxonomy[c].skills|
          && x == Qualified(taxonomy[c].name, taxonomy[c].skills[k]);
        if c == 0 {
          assert head[k] == x;
        } else {
          assert taxonomy[1..][c - 1] == taxonomy[c];
          assert Identifies(taxonomy[1..], x);
        }
      }
    }
  }

  /** `FLATTENED_SKILLS`. */
  const FlattenedSkills: seq<string> := Flatten(SkillTaxonomy)

  /** The skills each mapped role is offered. */
  const DataAnalystSkills: seq<string> := [
    "Programming Languages: SQL", "Programming Languages: Python",
    "Data Visualization & BI: Power BI", "Data Visualization & BI: Tableau",
    "Data Visualization & BI: Excel", "Other Technical Skills: Statistics"]

  const DataScientistSkills: seq<string> := [
    "Programming Languages: Python", "Machine Learning & AI: Machine Learning",
    "Machine Learning & AI: Deep Learning", "Machine Learning & AI: Natural Language Processing (NLP)",
    "Machine Learning & AI: Feature Engineering", "Frameworks & Libraries: Scikit-learn",
    "Frameworks & Libraries: Pandas", "Frameworks & Libraries: NumPy"]

  const MlEngineerSkills: seq<string> := [
    "Programming Languages: Python", "Machine Learning & AI: Deep Learning",
    "Frameworks & Libraries: TensorFlow", "Frameworks & Libraries: PyTorch",
    "Machine Learning & AI: MLOps", "Machine Learning & AI: Model Deployment",
    "Cloud & DevOps: AWS", "Cloud & DevOps: Azure", "Cloud & DevOps: GCP",
    "Cloud & DevOps: Docker", "Cloud & DevOps: Kubernetes", "Cloud & DevOps: CI/CD"]

  const DataEngineerSkills: seq<string> := [
    "Programming Languages: SQL", "Programming Languages: Python",
    "Data Engineering: ETL", "Data Engineering: Data Pipelines",
    "Data Engineering: Apache Spark", "Data Engineering: Kafka",
    "Cloud & DevOps: AWS", "Cloud & DevOps: Docker", "Cloud & DevOps: Kubernetes"]

  const AiResearcherSkills: seq<string> := [
    "Programming Languages: Python", "Machine Learning & AI: Deep Learning",
    "Machine Learning & AI: Generative AI", "Machine Learning & AI: Natural Language Processing (NLP)",
    "Frameworks & Libraries: PyTorch", "Machine Learning & AI: Computer Vision",
    "Machine Learning & AI: Reinforcement Learning", "Other Technical Skills: Statistics"]

  const SoftwareDeveloperSkills: seq<string> := [
    "Programming Languages: Python", "Programming Languages: JavaScript",
    "Software Development: React", "Software Development: Node.js",
    "Software Development: Git", "Software Development: APIs",
    "Software Development: Agile Methodology"]

  const FullStackSkills: seq<string> := [
    "Programming Languages: JavaScript", "Programming Languages: Python",
    "Software Development: React", "Software Development: Node.js",
    "Software Development: Django", "Software Development: Flask",
    "Programming Languages: SQL", "Software Development: Git"]

  const PromptEngineerSkills: seq<string> := [
    "Other Technical Skills: Prompt Engineering", "Machine Learning & AI: Generative AI",
    "Machine Learning & AI: Natural Language Processing (NLP)", "Programming Languages: Python",
    "Frameworks & Libraries: Hugging Face Transformers"]

  /** A value of `ROLE_SKILLS_MAP`: a list of its own, or the flattened list
      itself (the sentinel role's entry). */
  datatype RoleEntry = Listed(skills: seq<string>) | AllFlattened

  /** A lookup in `ROLE_SKILLS_MAP`: the entry for `role`, or `None` when the
      role has no entry. */
  function RoleSkillsMap(role: string): (r: Option<RoleEntry>)
    ensures r.Some? ==> role in AllRoles
    ensures r == Some(AllFlattened) <==> role == SelectRole
  {
    if role == "Data Analyst" then Some(Listed(DataAnalystSkills))
    else if role == "Data Scientist" then Some(Listed(DataScientistSkills))
    else if role == "Machine Learning Engineer" then Some(Listed(MlEngineerSkills))
    else if role == "Data Engineer" then Some(Listed(DataEngineerSkills))
    else if role == "AI Researcher" then Some(Listed(AiResearcherSkills))
    else if role == "Software Developer" then Some(Listed(SoftwareDeveloperSkills))
    else if role == "Full Stack Developer" then Some(Listed(FullStackSkills))
    else if role == "Prompt Engineer / GenAI Specialist" then Some(Listed(PromptEngineerSkills))
    else if role == SelectRole then Some(AllFlattened)
    else None
  }

  const LearningModes: seq<string> := ["Self-paced", "Mentor-led", "Bootcamp", "Hybrid"]

  const Timeframes: seq<string> := ["3 months", "6 months", "1 year", "Flexible"]

  const Flexible: string := "Flexible"
}
