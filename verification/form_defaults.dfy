/** How the form opens: which entry each select box starts on, given the
    stored profile, and how the timeframe box and the months input combine. */
module FormDefaults {
  import opened Wrappers
  import opened Taxonomy

  /** The months input accepts whole numbers from 1 to 60. */
  type Months = m: int | 1 <= m <= 60 witness 12

  /** `options.index(x)`: the first position holding `x`. */
  function IndexOf(options: seq<string>, x: string): (i: nat)
    requires x in options
    ensures i < |options| && options[i] == x
    ensures x !in options[..i]
  {
    if options[0] == x then 0
    else
      var i := IndexOf(options[1..], x);
      assert options[..i + 1] == [options[0]] + options[1..][..i];
      i + 1
  }

  /** `options.index(v) if v in options else fallback`. The box opens on the
      stored value when it is one of the options, otherwise on the fallback
      entry. */
  function DefaultIndex(options: seq<string>, stored: Option<string>, fallback: nat): (i: nat)
    requires fallback < |options|
    ensures i < |options|
    ensures stored.Some? && stored.value in options ==> options[i] == stored.value
    ensures !(stored.Some? && stored.value in options) ==> i == fallback
  {
    if stored.Some? && stored.value in options then IndexOf(options, stored.value) else fallback
  }

  /** The role box opens on the stored role, or on the sentinel when the
      stored role is missing or not in the role list. */
  function RoleIndex(stored: Option<string>): (i: nat)
    ensures i < |AllRoles|
    ensures stored.Some? && stored.value in AllRoles ==> AllRoles[i] == stored.value
    ensures !(stored.Some? && stored.value in AllRoles) ==> AllRoles[i] == SelectRole
  {
    DefaultIndex(AllRoles, stored, 0)
  }

  /** The learning-mode box opens on the stored mode, or on "Self-paced". */
  function LearningIndex(stored: Option<string>): (i: nat)
    ensures i < |LearningModes|
    ensures stored.Some? && stored.value in LearningModes ==> LearningModes[i] == stored.value
    ensures !(stored.Some? && stored.value in LearningModes) ==> LearningModes[i] == "Self-paced"
  {
    DefaultIndex(LearningModes, stored, 0)
  }

  /** `"Flexible" if t == "Flexible" else t`: both branches give `t`. */
  function TimeframeOption(stored: Option<string>): (r: Option<string>)
    ensures r == stored
  {
    match stored
    case Some(t) => if t == Flexible then Some(Flexible) else Some(t)
    case None => None
  }

  /** The timeframe box opens on the stored timeframe, or on "6 months". */
  function TimeframeIndex(stored: Option<string>): (i: nat)
    ensures i < |Timeframes|
    ensures stored.Some? && stored.value in Timeframes ==> Timeframes[i] == stored.value
    ensures !(stored.Some? && stored.value in Timeframes) ==> Timeframes[i] == "6 months"
  {
    DefaultIndex(Timeframes, TimeframeOption(stored), 1)
  }

  /** The months input's starting value: the stored months, unless absent or
      zero (falsy in Python), in which case 12. */
  function DefaultMonths(stored: Option<int>): (m: int)
    ensures stored.Some? && stored.value != 0 ==> m == stored.value
    ensures stored.None? || stored.value == 0 ==> m == 12
  {
    match stored
    case Some(n) => if n != 0 then n else 12
    case None => 12
  }

  /** What the form saves for the timeframe. */
  datatype TimeframeChoice = TimeframeChoice(timeframe: string, customMonths: Option<int>)

  /** The saved timeframe is the selected option; months are saved exactly
      when the option is "Flexible", and then they are the input's value. */
  function FinalTimeframe(option: string, months: Months): (c: TimeframeChoice)
    ensures c.timeframe == option
    ensures c.customMonths.Some? <==> option == Flexible
    ensures c.customMonths.Some? ==> c.customMonths.value == months
  {
    if option == Flexible then TimeframeChoice(Flexible, Some(months))
    else TimeframeChoice(option, None)
  }

  /** Saving a timeframe and reopening the form gives back the same choice:
      the box opens on the saved option and, for "Flexible", the months input
      starts at the saved months. */
  lemma TimeframeRoundTrip(option: string, months: Months)
    requires option in Timeframes
    ensures Timeframes[TimeframeIndex(Some(FinalTimeframe(option, months).timeframe))] == option
    ensures option == Flexible ==> DefaultMonths(FinalTimeframe(option, months).customMonths) == months
  {
  }
}
