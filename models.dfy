/** The records of the health API (healthapis/health/models.py): the choice
    enums, the record shapes with their defaults, the uniqueness constraints,
    and the rule by which a health profile is saved. Floating-point fields
    are integers here (centimetres, kilograms, BMI in hundredths). */
module Models {
  import opened Common

  /* ================= CHOICES ================= */

  datatype Role = USER | EXPERT | ADMIN

  /** The value stored for each choice. */
  function RoleName(r: Role): string {
    match r
    case USER => "USER"
    case EXPERT => "EXPERT"
    case ADMIN => "ADMIN"
  }

  /** A stored role value read back; anything but the three names is no role. */
  function ParseRole(s: string): (r: Option<Role>)
    ensures r.Some? ==> RoleName(r.value) == s
  {
    if s == "USER" then Some(USER)
    else if s == "EXPERT" then Some(EXPERT)
    else if s == "ADMIN" then Some(ADMIN)
    else None
  }

  /** Every role is stored under a name that reads back as that role, and
      distinct roles have distinct names. */
  lemma RoleNamesRoundTrip(r: Role, q: Role)
    ensures ParseRole(RoleName(r)) == Some(r)
    ensures RoleName(r) == RoleName(q) ==> r == q
  {
  }

  /** `default=UserRole.USER`. */
  const DefaultRole: Role := USER

  datatype Gender = MALE | FEMALE | OTHER
  datatype Expertise = WEIGHT_GAIN | WEIGHT_LOSS | MAINTAINING

  /* ================= RECORDS ================= */

  /** `User` (AbstractUser's `is_active` and BaseModel's `active` are both kept). */
  datatype User = User(
    id: int, username: string, email: string, firstName: string, lastName: string,
    role: Role, isActive: bool, active: bool)

  datatype Expert = Expert(id: int, user: int, expertise: Expertise, active: bool)

  datatype HealthProfile = HealthProfile(
    id: int, user: int, height: int, weight: int, age: int, gender: Gender, goal: string,
    bmi: Option<int>, active: bool)

  datatype Metric = Metric(
    id: int, user: int, date: int, steps: int, waterIntake: int, caloriesBurned: int, active: bool)

  datatype ReminderRecord = ReminderRecord(
    id: int, user: int, titleName: string, time: string, describe: string, active: bool)

  datatype Plan = Plan(
    id: int, user: int, name: string, date: int, totalDuration: string, note: Option<string>, active: bool)

  datatype Exercise = Exercise(id: int, name: string, description: string, active: bool)

  /** `ExercisePlant_Exercise`: one exercise in one plan. */
  datatype PlanExercise = PlanExercise(
    id: int, plan: int, exercise: int, repetitions: int, duration: int, active: bool)

  /** A connection between a user and an expert record. The model class is
      not in models.py; its two fields are the ones the views filter on. */
  datatype Connection = Connection(id: int, user: int, expert: int)

  /** A new user as stored: the role defaults to USER and the record is active. */
  function NewUser(id: int, username: string, email: string, firstName: string, lastName: string, role: Option<Role>)
    : (u: User)
    ensures u.role == (if role.Some? then role.value else DefaultRole)
    ensures u.active && u.isActive
    ensures u.id == id && u.username == username && u.email == email
  {
    User(id, username, email, firstName, lastName, role.GetOr(DefaultRole), true, true)
  }

  /** `describe = TextField(default='')`, `active` from BaseModel. */
  function NewReminder(id: int, user: int, titleName: string, time: string, describe: Option<string>)
    : (r: ReminderRecord)
    ensures r.active && r.describe == (if describe.Some? then describe.value else "")
  {
    ReminderRecord(id, user, titleName, time, describe.GetOr(""), true)
  }

  /* ================= UNIQUENESS ================= */

  /** No two rows share a key. */
  predicate UniqueBy<T, K(==)>(rows: seq<T>, key: T -> K) {
    forall i, j :: 0 <= i < j < |rows| ==> key(rows[i]) != key(rows[j])
  }

  /** Under a uniqueness constraint, a key names at most one row. */
  lemma AtMostOne<T, K>(rows: seq<T>, key: T -> K, i: int, j: int)
    requires UniqueBy(rows, key)
    requires 0 <= i < |rows| && 0 <= j < |rows| && key(rows[i]) == key(rows[j])
    ensures i == j
  {
  }

  /** Adding a row under a fresh key keeps the constraint. */
  lemma UniqueByAppend<T, K>(rows: seq<T>, key: T -> K, x: T)
    requires UniqueBy(rows, key)
    requires forall i :: 0 <= i < |rows| ==> key(rows[i]) != key(x)
    ensures UniqueBy(rows + [x], key)
  {
    var r := rows + [x];
    forall i, j | 0 <= i < j < |r|
      ensures key(r[i]) != key(r[j])
    {
      assert r[i] == rows[i];
      if j < |rows| {
        assert r[j] == rows[j];
      }
    }
  }

  /** Rewriting a row without changing its key keeps the constraint. */
  lemma UniqueByReplace<T, K>(rows: seq<T>, key: T -> K, k: int, x: T)
    requires UniqueBy(rows, key)
    requires 0 <= k < |rows| && key(x) == key(rows[k])
    ensures UniqueBy(rows[k := x], key)
  {
    var r := rows[k := x];
    forall i, j | 0 <= i < j < |r|
      ensures key(r[i]) != key(r[j])
    {
      assert key(r[i]) == key(rows[i]) && key(r[j]) == key(rows[j]);
    }
  }

  function MetricKey(m: Metric): (int, int) { (m.user, m.date) }
  function ProfileOwner(p: HealthProfile): int { p.user }
  function ExpertOwner(e: Expert): int { e.user }
  function ExpertId(e: Expert): int { e.id }
  function UserEmail(u: User): string { u.email }

  /** The table constraints of models.py: `unique_together` on (user, date),
      the two one-to-one links to a user, and the unique e-mail. */
  predicate MetricsUnique(ms: seq<Metric>) { UniqueBy(ms, MetricKey) }
  predicate OneProfilePerUser(ps: seq<HealthProfile>) { UniqueBy(ps, ProfileOwner) }
  predicate OneExpertPerUser(es: seq<Expert>) { UniqueBy(es, ExpertOwner) }
  predicate EmailsUnique(us: seq<User>) { UniqueBy(us, UserEmail) }

  /** "At most one daily metric per user and date", in its plain form. */
  lemma OneMetricPerDay(ms: seq<Metric>, i: int, j: int)
    requires MetricsUnique(ms)
    requires 0 <= i < |ms| && 0 <= j < |ms|
    requires ms[i].user == ms[j].user && ms[i].date == ms[j].date
    ensures i == j
  {
    AtMostOne(ms, MetricKey, i, j);
  }

  /* ================= HEALTH PROFILE SAVE ================= */

  /** `n / d` rounded to the nearest integer, halves upward. */
  function RoundDiv(n: int, d: int): (q: int)
    requires d > 0
    ensures 2 * n - d < 2 * q * d <= 2 * n + d
  {
    var q := (2 * n + d) / (2 * d);
    assert (2 * n + d) == (2 * d) * q + (2 * n + d) % (2 * d);
    q
  }

  /** `round(weight / (height / 100) ** 2, 2)` in hundredths: the nearest
      integer to `weight * 1_000_000 / height²`. */
  function Bmi(height: int, weight: int): (b: int)
    requires height != 0
    ensures var h2 := height * height;
            2 * weight * 1_000_000 - h2 < 2 * b * h2 <= 2 * weight * 1_000_000 + h2
  {
    RoundDiv(weight * 1_000_000, height * height)
  }

  /** `HealthProfile.save`: with a non-zero height and weight the BMI is
      recomputed and the row written; otherwise nothing is written at all. */
  function SaveProfile(p: HealthProfile): (r: Option<HealthProfile>)
    ensures r.Some? <==> p.height != 0 && p.weight != 0
    ensures r.Some? ==> r.value == p.(bmi := Some(Bmi(p.height, p.weight)))
  {
    if p.height != 0 && p.weight != 0 then Some(p.(bmi := Some(Bmi(p.height, p.weight)))) else None
  }

  /** Saving a saved profile again writes the same row: the BMI depends only on
      height and weight. */
  lemma SaveProfileIdempotent(p: HealthProfile)
    requires SaveProfile(p).Some?
    ensures SaveProfile(SaveProfile(p).value) == SaveProfile(p)
  {
  }
}
