/**
 * The dashboard of app/dashboard/page.tsx: every shown value is a chain of
 * `||` fallbacks over the profile record (`userData`, an object or `null`)
 * and the Firebase user, and each section is guarded by a truthiness test.
 * Falsy values such as an empty string or a score of 0 fall through to the
 * fallback.
 */
module Dashboard {
  import opened Wrappers
  import opened Text
  import opened Values

  /** `s?.split(" ")[0]` for a value that is a string, `null` or `undefined`. */
  function FirstWordOf(v: Value): (r: Value)
    ensures v.Str? ==> r == Str(FirstWord(v.s))
    ensures !v.Str? ==> r == Undefined
  {
    if v.Str? then Str(FirstWord(v.s)) else Undefined
  }

  /** A missing string as `undefined`, for `user?.displayName` and `user?.email`. */
  function OptStr(s: Option<string>): Value {
    if s.Some? then Str(s.value) else Undefined
  }

  /** The name in "Welcome back, …!". */
  function Greeting(userData: Value, displayName: Option<string>): (r: Value)
    ensures r.Str? && r.s != "" && ' ' !in r.s
    ensures var n := Get(userData, "name");
      n.Str? && FirstWord(n.s) != "" ==> r == Str(FirstWord(n.s))
    ensures var n := Get(userData, "name");
      !(n.Str? && FirstWord(n.s) != "") && displayName.Some? && FirstWord(displayName.value) != "" ==>
        r == Str(FirstWord(displayName.value))
    ensures var n := Get(userData, "name");
      !(n.Str? && FirstWord(n.s) != "") && !(displayName.Some? && FirstWord(displayName.value) != "") ==>
        r == Str("there")
  {
    Or(FirstWordOf(Get(userData, "name")), Or(FirstWordOf(OptStr(displayName)), Str("there")))
  }

  /** A stored name that starts with a space has an empty first word, so the
      greeting falls back to the display name (or "there"). */
  lemma LeadingSpaceFallsThrough(record: Record, rest: string, displayName: Option<string>)
    requires "name" in record && record["name"] == Str(" " + rest)
    ensures Greeting(Obj(record), displayName) == Greeting(Null, displayName)
  {
    assert FirstWord(" " + rest) == "";
  }

  /** The full name in the profile card. */
  function FullName(userData: Value, displayName: Option<string>): Value {
    Or(Get(userData, "name"), Or(OptStr(displayName), Str("Not provided")))
  }

  /** The email in the profile card (nothing is shown when neither is set). */
  function Email(userData: Value, email: Option<string>): Value {
    Or(Get(userData, "email"), OptStr(email))
  }

  /** `userData?.phone || "Not provided"` and `userData?.location || "Not provided"`. */
  function Phone(userData: Value): Value {
    Or(Get(userData, "phone"), Str("Not provided"))
  }

  function Location(userData: Value): Value {
    Or(Get(userData, "location"), Str("Not provided"))
  }

  /** The profile card never shows an empty or missing value, except the
      email when neither source has one. */
  lemma ProfileCardFilled(userData: Value, displayName: Option<string>)
    ensures Truthy(FullName(userData, displayName))
    ensures Truthy(Phone(userData)) && Truthy(Location(userData))
    ensures !Truthy(Get(userData, "name")) && !(displayName.Some? && displayName.value != "") ==>
      FullName(userData, displayName) == Str("Not provided")
    ensures !Truthy(Get(userData, "phone")) ==> Phone(userData) == Str("Not provided")
    ensures !Truthy(Get(userData, "location")) ==> Location(userData) == Str("Not provided")
  {
  }

  function Education(userData: Value): Value {
    Get(userData, "currentEducation")
  }

  /** `x?.length || 0`: the length of an array or string, and 0 for anything
      without a length. */
  function LengthOr0(v: Value): (r: nat)
    ensures v.Arr? ==> r == |v.items|
    ensures v.Str? ==> r == |v.s|
    ensures !v.Arr? && !v.Str? ==> r == 0
  {
    match v
    case Arr(items) => |items|
    case Str(s) => |s|
    case _ => 0
  }

  /** The counters of the stat cards. */
  function SubjectCount(userData: Value): nat {
    LengthOr0(Get(Education(userData), "subjects"))
  }

  function TestCount(userData: Value): nat {
    LengthOr0(Get(userData, "testScores"))
  }

  /** `x && x.length > 0`, the guard of a list section. */
  predicate ShowsList(v: Value) {
    Truthy(v) && LengthOr0(v) > 0
  }

  predicate ShowsSubjects(userData: Value) {
    ShowsList(Get(Education(userData), "subjects"))
  }

  predicate ShowsTestScores(userData: Value) {
    ShowsList(Get(userData, "testScores"))
  }

  /** A counter reads 0 exactly when its section is hidden, whatever the
      stored value is (missing, null, empty or not a list at all). */
  lemma CountsMatchSections(userData: Value)
    ensures SubjectCount(userData) > 0 <==> ShowsSubjects(userData)
    ensures TestCount(userData) > 0 <==> ShowsTestScores(userData)
  {
  }

  /** `…expectedGraduationYear || "TBD"`. */
  function GraduationYear(userData: Value): Value {
    Or(Get(Education(userData), "expectedGraduationYear"), Str("TBD"))
  }

  /** A missing, null or zero year shows "TBD"; any other year shows itself. */
  lemma GraduationYearFallback(userData: Value)
    ensures var y := Get(Education(userData), "expectedGraduationYear");
      (y == Undefined || y == Null || y == Num(0.0) ==> GraduationYear(userData) == Str("TBD"))
      && (y.Num? && y.x != 0.0 ==> GraduationYear(userData) == y)
  {
  }

  /** `…percentage || 0`. */
  function Percentage(userData: Value): Value {
    Or(Get(Education(userData), "percentage"), Num(0.0))
  }

  /** The education section is shown only for a truthy `currentEducation`. */
  predicate ShowsEducation(userData: Value) {
    Truthy(Education(userData))
  }

  /** The three fields of the education section. */
  function EducationField(userData: Value, key: string): Value {
    Or(Get(Education(userData), key), Str("Not specified"))
  }

  lemma EducationFieldsFilled(userData: Value, key: string)
    ensures Truthy(EducationField(userData, key))
    ensures !Truthy(Get(Education(userData), key)) ==> EducationField(userData, key) == Str("Not specified")
    ensures Truthy(Get(Education(userData), key)) ==> EducationField(userData, key) == Get(Education(userData), key)
  {
  }

  /** One test-score row: `test.score || "N/A"`, and the rank line only when
      the rank is truthy. */
  function ScoreText(test: Value): Value {
    Or(Get(test, "score"), Str("N/A"))
  }

  predicate ShowsRank(test: Value) {
    Truthy(Get(test, "rank"))
  }

  /** A score of 0 reads "N/A" just like a missing one, and an empty rank is
      not shown. */
  lemma ZeroScoreIsNA(test: Record)
    ensures "score" in test && test["score"] in {Num(0.0), Null, Undefined} ==> ScoreText(Obj(test)) == Str("N/A")
    ensures "score" !in test ==> ScoreText(Obj(test)) == Str("N/A")
    ensures "rank" in test && test["rank"] == Str("") ==> !ShowsRank(Obj(test))
    ensures "score" in test && test["score"].Num? && test["score"].x != 0.0 ==> ScoreText(Obj(test)) == test["score"]
  {
  }
}
