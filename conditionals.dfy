/**
 * Guard clauses and if/elif chains of the conditionals tutorial: user
 * validation, the day planner, the login check, letter grades, academic
 * status and the weather recommendation.
 */
module Conditionals {
  import opened Wrappers
  import opened Text
  import opened Values

  // ----- validate_user -----

  datatype UserCheck = NoDataProvided | EmailRequired | InvalidEmailFormat | UserValid

  function UserCheckMessage(c: UserCheck): string {
    match c
    case NoDataProvided => "\U{274C} No data provided"
    case EmailRequired => "\U{274C} Email required"
    case InvalidEmailFormat => "\U{274C} Invalid email format"
    case UserValid => "\U{2705} User valid"
  }

  /** Raised by `"@" not in email` when the email is neither a string nor a dictionary. */
  datatype TypeError = NotIterable

  /** `not user_data`: None and the empty dictionary are false. */
  predicate HasData(userData: Option<map<string, Value>>) {
    userData.Some? && |userData.value| > 0
  }

  /**
   * `"@" in email`: a substring test on a string and a key test on a
   * dictionary; any other value makes the test raise.
   */
  function ContainsAt(email: Value): (r: Result<bool, TypeError>)
    ensures email.Str? ==> r == Success('@' in email.s)
    ensures email.Dictionary? ==> r == Success("@" in email.items)
    ensures r.Failure? <==> !email.Str? && !email.Dictionary?
  {
    match email
    case Str(s) => Success('@' in s)
    case Dictionary(items) => Success("@" in items)
    case _ => Failure(NotIterable)
  }

  /**
   * `validate_user(user_data)`: the checks run in a fixed order, and the first
   * that fails decides the answer.
   */
  function ValidateUser(userData: Option<map<string, Value>>): (r: Result<UserCheck, TypeError>)
    // no data wins over everything else
    ensures !HasData(userData) ==> r == Success(NoDataProvided)
    // a missing email is reported before its format is looked at
    ensures HasData(userData) && "email" !in userData.value ==> r == Success(EmailRequired)
    // an email that is neither a string nor a dictionary makes the `in` test raise
    ensures r.Failure? <==>
              HasData(userData) && "email" in userData.value
              && !userData.value["email"].Str? && !userData.value["email"].Dictionary?
    // valid exactly when there is data and an email holding '@' (as a character or as a key)
    ensures r == Success(UserValid) <==>
              HasData(userData) && "email" in userData.value
              && ((userData.value["email"].Str? && '@' in userData.value["email"].s)
                  || (userData.value["email"].Dictionary? && "@" in userData.value["email"].items))
    ensures r == Success(InvalidEmailFormat) <==>
              HasData(userData) && "email" in userData.value
              && ((userData.value["email"].Str? && '@' !in userData.value["email"].s)
                  || (userData.value["email"].Dictionary? && "@" !in userData.value["email"].items))
  {
    if !HasData(userData) then Success(NoDataProvided)
    else if "email" !in userData.value then Success(EmailRequired)
    else
      match ContainsAt(userData.value["email"])
      case Success(found) => if !found then Success(InvalidEmailFormat) else Success(UserValid)
      case Failure(e) => Failure(e)
  }

  // ----- get_day_plan -----

  const WeekendPlan: string := "Weekend - No work!"

  const Plans: map<string, string> := map[
    "monday" := "Team meeting",
    "tuesday" := "Code review",
    "wednesday" := "Development",
    "thursday" := "Testing",
    "friday" := "Deployment"
  ]

  /** `get_day_plan(day)`: the plan of the lower-cased day, or the weekend message. */
  function GetDayPlan(day: string): (r: string)
    ensures Lower(day) in Plans ==> r == Plans[Lower(day)]
    ensures Lower(day) !in Plans ==> r == WeekendPlan
  {
    var key := Lower(day);
    if key in Plans then Plans[key] else WeekendPlan
  }

  /** The planner ignores case: asking with the lower-cased day gives the same plan. */
  lemma DayPlanIgnoresCase(day: string)
    ensures GetDayPlan(day) == GetDayPlan(Lower(day))
  {
    LowerIdempotent(day);
  }

  /** A working plan is given exactly for the five weekdays, in any case. */
  lemma DayPlanWorksExactlyOnWeekdays(day: string)
    ensures GetDayPlan(day) != WeekendPlan <==>
              Lower(day) in {"monday", "tuesday", "wednesday", "thursday", "friday"}
  {
  }

  // ----- authenticate -----

  const MaxAttempts: int := 3

  const ValidUsers: map<string, string> := map["admin" := "pass123", "user" := "secret"]

  datatype Login = AccountLocked | UserNotFound | LoginSuccessful | WrongPassword(remaining: int) {
    /** The "success" entry of the returned dictionary. */
    predicate Success() {
      LoginSuccessful?
    }

    /** The "message" entry of the returned dictionary. */
    function Message(): string {
      match this
      case AccountLocked => "\U{1F512} Account locked"
      case UserNotFound => "\U{274C} User not found"
      case LoginSuccessful => "\U{2705} Login successful"
      case WrongPassword(n) => "\U{274C} Wrong password. " + ShowInt(n) + " attempts left"
    }
  }

  /** `authenticate(username, password, attempts)` */
  function Authenticate(username: string, password: string, attempts: int): (r: Login)
    // the lockout comes first, whatever the credentials
    ensures attempts >= MaxAttempts ==> r == AccountLocked
    ensures r.Success() <==>
              attempts < MaxAttempts && username in ValidUsers && ValidUsers[username] == password
    ensures r == UserNotFound <==> attempts < MaxAttempts && username !in ValidUsers
    // a wrong password reports the attempts left after this one, never a negative count
    ensures r.WrongPassword? <==>
              attempts < MaxAttempts && username in ValidUsers && ValidUsers[username] != password
    ensures r.WrongPassword? ==> r.remaining == MaxAttempts - attempts - 1 && r.remaining >= 0
  {
    if attempts >= MaxAttempts then AccountLocked
    else if username !in ValidUsers then UserNotFound
    else if ValidUsers[username] == password then LoginSuccessful
    else WrongPassword(MaxAttempts - attempts - 1)
  }

  /** Each further failed attempt leaves one attempt fewer, until the account locks. */
  lemma WrongPasswordCountsDown(username: string, password: string, attempts: int)
    requires Authenticate(username, password, attempts).WrongPassword?
    ensures Authenticate(username, password, attempts + 1) ==
              if attempts + 1 < MaxAttempts
              then WrongPassword(Authenticate(username, password, attempts).remaining - 1)
              else AccountLocked
  {
  }

  // ----- process_grades: letter_grade and academic_status -----

  datatype Letter = A | B | C | D | F

  /** Higher is better. */
  function LetterRank(l: Letter): nat {
    match l
    case A => 4
    case B => 3
    case C => 2
    case D => 1
    case F => 0
  }

  /** Whether a score earns at least the letter `l` (F needs nothing). */
  predicate Earns(score: real, l: Letter) {
    match l
    case A => score >= 90.0
    case B => score >= 80.0
    case C => score >= 70.0
    case D => score >= 60.0
    case F => true
  }

  /** `letter_grade(score)`, thresholds 90, 80, 70, 60. */
  function LetterGrade(score: real): (r: Letter)
    ensures r == A <==> score >= 90.0
    ensures r == B <==> 80.0 <= score < 90.0
    ensures r == C <==> 70.0 <= score < 80.0
    ensures r == D <==> 60.0 <= score < 70.0
    ensures r == F <==> score < 60.0
  {
    if score >= 90.0 then A
    else if score >= 80.0 then B
    else if score >= 70.0 then C
    else if score >= 60.0 then D
    else F
  }

  /** The letter given is the best letter the score earns. */
  lemma LetterGradeIsBestEarned(score: real)
    ensures Earns(score, LetterGrade(score))
    ensures forall l :: Earns(score, l) ==> LetterRank(l) <= LetterRank(LetterGrade(score))
  {
    forall l | Earns(score, l)
      ensures LetterRank(l) <= LetterRank(LetterGrade(score))
    {
      match l
      case A =>
      case B =>
      case C =>
      case D =>
      case F =>
    }
  }

  /** A higher score never earns a worse letter. */
  lemma LetterGradeMonotone(s1: real, s2: real)
    requires s1 <= s2
    ensures LetterRank(LetterGrade(s1)) <= LetterRank(LetterGrade(s2))
  {
  }

  datatype Standing = DeansList | GoodStanding | Probation | AcademicWarning

  function StandingRank(s: Standing): nat {
    match s
    case DeansList => 3
    case GoodStanding => 2
    case Probation => 1
    case AcademicWarning => 0
  }

  function StandingName(s: Standing): string {
    match s
    case DeansList => "Dean's List"
    case GoodStanding => "Good Standing"
    case Probation => "Probation"
    case AcademicWarning => "Academic Warning"
  }

  /** `academic_status(gpa)`, thresholds 3.7, 3.0, 2.0. */
  function AcademicStatus(gpa: real): (r: Standing)
    ensures r == DeansList <==> gpa >= 3.7
    ensures r == GoodStanding <==> 3.0 <= gpa < 3.7
    ensures r == Probation <==> 2.0 <= gpa < 3.0
    ensures r == AcademicWarning <==> gpa < 2.0
  {
    if gpa >= 3.7 then DeansList
    else if gpa >= 3.0 then GoodStanding
    else if gpa >= 2.0 then Probation
    else AcademicWarning
  }

  /** A higher GPA never gives a worse standing. */
  lemma AcademicStatusMonotone(g1: real, g2: real)
    requires g1 <= g2
    ensures StandingRank(AcademicStatus(g1)) <= StandingRank(AcademicStatus(g2))
  {
  }

  // ----- recommend_activity -----

  datatype Activity =
    | StayIndoors
    | BeachDay
    | GreatForWalk
    | SunnyButCold
    | BuildSnowman
    | TooColdInside
    | CheckWeather

  function ActivityMessage(a: Activity): string {
    match a
    case StayIndoors => "\U{2614} Stay indoors - perfect for coding!"
    case BeachDay => "\U{1F3D6}\U{FE0F} Beach day!"
    case GreatForWalk => "\U{1F6B6} Great for a walk!"
    case SunnyButCold => "\U{1F9E5} Sunny but cold - wear a jacket!"
    case BuildSnowman => "\U{26C4} Build a snowman!"
    case TooColdInside => "\U{1F3E0} Too cold - stay warm inside!"
    case CheckWeather => "\U{1F324}\U{FE0F} Check the weather and decide!"
  }

  /** `recommend_activity(weather, temp)` */
  function RecommendActivity(weather: string, temp: int): (r: Activity)
    ensures weather == "rainy" <==> r == StayIndoors
    ensures weather == "sunny" <==> r in {BeachDay, GreatForWalk, SunnyButCold}
    ensures weather == "snowy" <==> r in {BuildSnowman, TooColdInside}
    ensures weather !in {"rainy", "sunny", "snowy"} <==> r == CheckWeather
    // the temperature bands: above 25, above 15, and above -5 on snowy days
    ensures r == BeachDay <==> weather == "sunny" && temp > 25
    ensures r == GreatForWalk <==> weather == "sunny" && 15 < temp <= 25
    ensures r == SunnyButCold <==> weather == "sunny" && temp <= 15
    ensures r == BuildSnowman <==> weather == "snowy" && temp > -5
    ensures r == TooColdInside <==> weather == "snowy" && temp <= -5
  {
    if weather == "rainy" then StayIndoors
    else if weather == "sunny" then
      if temp > 25 then BeachDay
      else if temp > 15 then GreatForWalk
      else SunnyButCold
    else if weather == "snowy" then
      if temp > -5 then BuildSnowman else TooColdInside
    else CheckWeather
  }

  /** How warm an outdoor recommendation is; warmer weather never gives a colder one. */
  function Warmth(a: Activity): int {
    match a
    case BeachDay => 2
    case GreatForWalk => 1
    case BuildSnowman => 1
    case _ => 0
  }

  lemma RecommendationWarmsWithTemperature(weather: string, t1: int, t2: int)
    requires t1 <= t2
    ensures Warmth(RecommendActivity(weather, t1)) <= Warmth(RecommendActivity(weather, t2))
  {
  }

  /** Only sunny and snowy days look at the temperature. */
  lemma TemperatureMattersOnlyWhenSunnyOrSnowy(weather: string, t1: int, t2: int)
    requires weather != "sunny" && weather != "snowy"
    ensures RecommendActivity(weather, t1) == RecommendActivity(weather, t2)
  {
  }
}
