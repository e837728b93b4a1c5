/** The target-profile record the page loads and saves. A save overwrites
    the whole record. */
module Profiles {
  import opened Wrappers

  /** The analysis pipeline's result, opaque to the page. */
  datatype Context = Context(payload: string)

  /** The ten fields of a saved target profile. A field missing from the
      loaded record, or stored as null, is `None`; a missing skill list is
      empty. */
  datatype TargetProfile = TargetProfile(
    targetRole: Option<string>,
    motivation: Option<string>,
    currentSkills: seq<string>,
    targetSkills: seq<string>,
    learningMode: Option<string>,
    timeframe: Option<string>,
    customMonths: Option<int>,
    resumeText: Option<string>,
    resumeFilename: Option<string>,
    analysis: Option<Context>)

  /** A field read with `dict.get(key, default)`, which tells a missing key
      (read as the default) from a key stored as null (read as `None`). */
  datatype Field = Absent | Null | Present(value: string)

  /** `profile.get(key, default)` for such a field. */
  function GetWithDefault(f: Field, default: string): Option<string> {
    match f
    case Absent => Some(default)
    case Null => None
    case Present(v) => Some(v)
  }

  /** A loaded profile: the record plus the two fields the pipeline input
      reads from it and that this page never writes. */
  datatype StoredProfile = StoredProfile(
    record: TargetProfile,
    currentRole: Field,
    experience: Field)

  /** Python truthiness of an optional string: present and non-empty. */
  predicate HasText(s: Option<string>) {
    s.Some? && s.value != ""
  }
}
