/** The record rules of the health API's views (healthapis/health/views.py):
    the current-user patch, the daily-metric upsert and listing, the single
    health profile per user, the soft delete of exercise plans, and the
    connection visibility and permission dispatch. Tables are sequences of
    the records of the Models module; the `Backend` class holds them and its
    methods are the request handlers. */
module Views {
  import opened Common
  import opened Models
  import opened Perms

  /** Why a request fails, by the exception that ends it. */
  datatype Failure =
    | NotAuthenticated
    | PermissionDenied(message: string)
    | NotFound
    | ValidationError(detail: string)
    | IntegrityError

  datatype Result<T> = Ok(value: T) | Err(failure: Failure)

  /* ================= CURRENT USER ================= */

  /** One `setattr` of the patch loop: only the three whitelisted keys are
      copied onto the user. */
  function PatchOne(u: User, key: string, v: string): (r: User)
    ensures key != "first_name" && key != "last_name" && key != "email" ==> r == u
    ensures r.id == u.id && r.username == u.username && r.role == u.role
    ensures r.active == u.active && r.isActive == u.isActive
  {
    if key == "first_name" then u.(firstName := v)
    else if key == "last_name" then u.(lastName := v)
    else if key == "email" then u.(email := v)
    else u
  }

  /** The loop over `request.data.items()`, in order. Whatever is sent, the
      id, the username, the role and the flags stay; a body without any of
      the three whitelisted keys changes nothing. */
  function PatchUser(u: User, data: seq<(string, string)>): (r: User)
    ensures r.id == u.id && r.username == u.username && r.role == u.role
    ensures r.active == u.active && r.isActive == u.isActive
    ensures (forall i :: 0 <= i < |data| ==> data[i].0 != "first_name" && data[i].0 != "last_name"
                                             && data[i].0 != "email") ==> r == u
  {
    if data == [] then u
    else
      var last := data[|data| - 1];
      PatchOne(PatchUser(u, data[..|data| - 1]), last.0, last.1)
  }

  /** The value the last pair under `key` carries, if any pair does. */
  function LastValue(data: seq<(string, string)>, key: string): (r: Option<string>)
    ensures r == None <==> forall i :: 0 <= i < |data| ==> data[i].0 != key
    ensures r.Some? ==> exists i :: 0 <= i < |data| && data[i] == (key, r.value)
                                   && forall j :: i < j < |data| ==> data[j].0 != key
  {
    if data == [] then None
    else if data[|data| - 1].0 == key then Some(data[|data| - 1].1)
    else LastValue(data[..|data| - 1], key)
  }

  /** The patch changes the first name, last name and e-mail to the last value
      sent for each, and nothing else about the user. */
  lemma {:induction false} PatchIsLastWrite(u: User, data: seq<(string, string)>)
    ensures PatchUser(u, data) == u.(
      firstName := LastValue(data, "first_name").GetOr(u.firstName),
      lastName := LastValue(data, "last_name").GetOr(u.lastName),
      email := LastValue(data, "email").GetOr(u.email))
  {
    if data != [] {
      PatchIsLastWrite(u, data[..|data| - 1]);
    }
  }

  /** The patch loop itself. */
  method ApplyPatch(u: User, data: seq<(string, string)>) returns (r: User)
    ensures r == PatchUser(u, data)
  {
    r := u;
    for i := 0 to |data|
      invariant r == PatchUser(u, data[..i])
    {
      assert data[..i + 1][..i] == data[..i];
      r := PatchOne(r, data[i].0, data[i].1);
    }
    assert data[..|data|] == data;
  }

  /** The request methods as the framework reports them: upper case. */
  const RequestMethods: seq<string> := ["GET", "POST", "PUT", "PATCH", "DELETE", "HEAD", "OPTIONS"]

  /** The guard as written: the method compared with lower-case "patch". */
  predicate PatchBranchAsWritten(verb: string) {
    verb == "patch"
  }

  /** `get_current_user` as written: the user it answers with. For every
      method name the framework reports, that is the user unchanged. */
  function CurrentUserAsWritten(u: User, verb: string, data: seq<(string, string)>): (r: User)
    ensures verb in RequestMethods ==> r == u
  {
    if PatchBranchAsWritten(verb) then PatchUser(u, data) else u
  }

  /** As written, no request method ever takes the patch branch, so a PATCH
      that sends a new first name leaves the user as it was. */
  lemma PatchIgnoredAsWritten(u: User)
    requires u.firstName != "An"
    ensures forall i :: 0 <= i < |RequestMethods| ==> !PatchBranchAsWritten(RequestMethods[i])
    ensures forall data, i | 0 <= i < |RequestMethods| :: CurrentUserAsWritten(u, RequestMethods[i], data) == u
    ensures CurrentUserAsWritten(u, "PATCH", [("first_name", "An")]).firstName != "An"
  {
    forall data, i | 0 <= i < |RequestMethods|
      ensures CurrentUserAsWritten(u, RequestMethods[i], data) == u
    {
      assert RequestMethods[i] in RequestMethods;
    }
  }

  /** The guard as evidently intended: the method is PATCH. */
  predicate PatchBranch(verb: string) {
    verb == "PATCH"
  }

  /** With the intended guard a PATCH applies exactly the whitelisted keys,
      and a GET changes nothing. */
  lemma PatchAppliedWhenIntended(u: User, data: seq<(string, string)>)
    ensures PatchBranch("PATCH") && !PatchBranch("GET")
    ensures var p := PatchUser(u, data);
            p.firstName == LastValue(data, "first_name").GetOr(u.firstName)
            && p.lastName == LastValue(data, "last_name").GetOr(u.lastName)
            && p.email == LastValue(data, "email").GetOr(u.email)
            && p.(firstName := u.firstName, lastName := u.lastName, email := u.email) == u
  {
    PatchIsLastWrite(u, data);
  }

  /** Whether a user other than the `k`-th already holds `email`: saving the
      patched user then breaks the unique e-mail constraint. */
  predicate EmailTaken(users: seq<User>, k: int, email: string) {
    exists j :: 0 <= j < |users| && j != k && users[j].email == email
  }

  /* ================= DAILY METRICS ================= */

  /** The three values a metric request may carry; a missing one is `None`. */
  datatype MetricInput = MetricInput(steps: Option<int>, waterIntake: Option<int>, caloriesBurned: Option<int>)

  /** The row `get_or_create` finds for (user, date), active or not. */
  function FindMetric(ms: seq<Metric>, user: int, date: int): (r: Option<nat>)
    ensures r.Some? ==> r.value < |ms| && ms[r.value].user == user && ms[r.value].date == date
    ensures r == None <==> forall i :: 0 <= i < |ms| ==> MetricKey(ms[i]) != (user, date)
  {
    if ms == [] then None
    else if ms[|ms| - 1].user == user && ms[|ms| - 1].date == date then Some(|ms| - 1)
    else FindMetric(ms[..|ms| - 1], user, date)
  }

  /** `request.data.get(field, current)` for the three fields. */
  function Fill(m: Metric, input: MetricInput): (r: Metric)
    ensures r.id == m.id && r.user == m.user && r.date == m.date && r.active == m.active
  {
    m.(steps := input.steps.GetOr(m.steps),
       waterIntake := input.waterIntake.GetOr(m.waterIntake),
       caloriesBurned := input.caloriesBurned.GetOr(m.caloriesBurned))
  }

  /** A new row for (user, date) with every value 0. */
  function ZeroRow(id: int, user: int, date: int): Metric {
    Metric(id, user, date, 0, 0, 0, true)
  }

  /** `create`: the row for (user, today) takes the supplied values; a new row
      (with id `nextId`) defaults each missing value to 0, an existing one
      keeps it. */
  function Upsert(ms: seq<Metric>, nextId: int, user: int, today: int, input: MetricInput): (r: seq<Metric>)
    ensures MetricsUnique(ms) ==> MetricsUnique(r)
  {
    match FindMetric(ms, user, today)
    case None =>
      var row := Fill(ZeroRow(nextId, user, today), input);
      assert MetricsUnique(ms) ==> MetricsUnique(ms + [row]) by {
        if MetricsUnique(ms) {
          UniqueByAppend(ms, MetricKey, row);
        }
      }
      ms + [row]
    case Some(k) =>
      assert MetricsUnique(ms) ==> MetricsUnique(ms[k := Fill(ms[k], input)]) by {
        if MetricsUnique(ms) {
          UniqueByReplace(ms, MetricKey, k, Fill(ms[k], input));
        }
      }
      ms[k := Fill(ms[k], input)]
  }

  /** After the upsert the table holds a row for (user, today) whose values
      are the supplied ones, falling back to the stored ones and then to 0;
      every row for another user or day is kept where it was, and no other
      row is added. */
  lemma UpsertStoresToday(ms: seq<Metric>, nextId: int, user: int, today: int, input: MetricInput)
    ensures var r := Upsert(ms, nextId, user, today, input);
            var prior := FindMetric(ms, user, today);
            var k := FindMetric(r, user, today);
            && k.Some?
            && r[k.value].steps == input.steps.GetOr(if prior.Some? then ms[prior.value].steps else 0)
            && r[k.value].waterIntake == input.waterIntake.GetOr(if prior.Some? then ms[prior.value].waterIntake else 0)
            && r[k.value].caloriesBurned == input.caloriesBurned.GetOr(if prior.Some? then ms[prior.value].caloriesBurned else 0)
            && (prior == None ==> r[k.value].id == nextId && r[k.value].active)
            && (forall i :: 0 <= i < |ms| && MetricKey(ms[i]) != (user, today) ==> r[i] == ms[i])
            && (forall i :: |ms| <= i < |r| ==> MetricKey(r[i]) == (user, today))
  {
    var r := Upsert(ms, nextId, user, today, input);
    match FindMetric(ms, user, today)
    case None =>
      FindExactly(r, user, today, |ms|);
    case Some(k) =>
      FindIsLast(ms, user, today, k);
      FindExactly(r, user, today, k);
  }

  /** Sending the same values twice stores what sending them once did. */
  lemma UpsertIdempotent(ms: seq<Metric>, n1: int, n2: int, user: int, today: int, input: MetricInput)
    ensures var once := Upsert(ms, n1, user, today, input);
            Upsert(once, n2, user, today, input) == once
  {
    var once := Upsert(ms, n1, user, today, input);
    match FindMetric(ms, user, today)
    case None =>
      FindExactly(once, user, today, |ms|);
    case Some(k) =>
      FindIsLast(ms, user, today, k);
      FindExactly(once, user, today, k);
  }

  /** The row found is the last one under its key. */
  lemma {:induction false} FindIsLast(ms: seq<Metric>, user: int, date: int, k: nat)
    requires FindMetric(ms, user, date) == Some(k)
    ensures forall i :: k < i < |ms| ==> MetricKey(ms[i]) != (user, date)
  {
    if ms[|ms| - 1].user == user && ms[|ms| - 1].date == date {
    } else {
      FindIsLast(ms[..|ms| - 1], user, date, k);
      assert forall i :: k < i < |ms| - 1 ==> ms[..|ms| - 1][i] == ms[i];
    }
  }

  /** The last row under the key is the one found. */
  lemma {:induction false} FindExactly(ms: seq<Metric>, user: int, date: int, k: nat)
    requires k < |ms| && MetricKey(ms[k]) == (user, date)
    requires forall i :: k < i < |ms| ==> MetricKey(ms[i]) != (user, date)
    ensures FindMetric(ms, user, date) == Some(k)
  {
    if k < |ms| - 1 {
      assert MetricKey(ms[|ms| - 1]) != (user, date);
      FindExactly(ms[..|ms| - 1], user, date, k);
    }
  }

  /** Whether a row is the requester's and active. */
  function OwnActiveMetric(user: int): Metric -> bool {
    (m: Metric) => m.user == user && m.active
  }

  predicate DateDescending(xs: seq<Metric>) {
    forall i, j :: 0 <= i < j < |xs| ==> xs[i].date >= xs[j].date
  }

  /** Inserts `m` before the first row that is not later than it. */
  function InsertByDate(m: Metric, xs: seq<Metric>): (r: seq<Metric>)
    ensures multiset(r) == multiset(xs) + multiset{m}
    ensures forall i :: 0 <= i < |r| ==> r[i] == m || r[i] in xs
  {
    if xs == [] || m.date >= xs[0].date then [m] + xs
    else
      assert xs == [xs[0]] + xs[1..];
      [xs[0]] + InsertByDate(m, xs[1..])
  }

  /** `order_by('-date')`, as an insertion sort. */
  function SortByDate(xs: seq<Metric>): (r: seq<Metric>)
    ensures multiset(r) == multiset(xs)
  {
    if xs == [] then []
    else
      assert xs == [xs[0]] + xs[1..];
      InsertByDate(xs[0], SortByDate(xs[1..]))
  }

  lemma {:induction false} InsertKeepsOrder(m: Metric, xs: seq<Metric>)
    requires DateDescending(xs)
    ensures DateDescending(InsertByDate(m, xs))
  {
    if xs != [] && m.date < xs[0].date {
      InsertKeepsOrder(m, xs[1..]);
      var rest := InsertByDate(m, xs[1..]);
      assert forall i :: 0 <= i < |rest| ==> rest[i].date <= xs[0].date by {
        forall i | 0 <= i < |rest|
          ensures rest[i].date <= xs[0].date
        {
          if rest[i] != m {
            var j :| 0 <= j < |xs[1..]| && xs[1..][j] == rest[i];
            assert xs[j + 1] == rest[i];
          }
        }
      }
    }
  }

  lemma {:induction false} SortIsDescending(xs: seq<Metric>)
    ensures DateDescending(SortByDate(xs))
  {
    if xs != [] {
      SortIsDescending(xs[1..]);
      InsertKeepsOrder(xs[0], SortByDate(xs[1..]));
    }
  }

  /** The metric listing: the requester's active rows, latest day first. */
  function MetricListing(ms: seq<Metric>, user: int): (r: seq<Metric>)
    ensures DateDescending(r)
    ensures multiset(r) == multiset(Filter(ms, OwnActiveMetric(user)))
  {
    SortIsDescending(Filter(ms, OwnActiveMetric(user)));
    SortByDate(Filter(ms, OwnActiveMetric(user)))
  }

  /** The listing holds exactly the requester's active rows, each as often
      as it is stored, and runs from the latest day to the earliest. */
  lemma MetricListingSpec(ms: seq<Metric>, user: int)
    ensures var r := MetricListing(ms, user);
            && DateDescending(r)
            && multiset(r) == multiset(Filter(ms, OwnActiveMetric(user)))
            && (forall m :: m in r ==> m in ms && m.user == user && m.active)
            && (forall i :: 0 <= i < |ms| && ms[i].user == user && ms[i].active ==> ms[i] in r)
  {
    var f := Filter(ms, OwnActiveMetric(user));
    var r := MetricListing(ms, user);
    SortIsDescending(f);
    forall m | m in r
      ensures m in ms && m.user == user && m.active
    {
      assert m in multiset(f);
      var i :| 0 <= i < |f| && f[i] == m;
      assert OwnActiveMetric(user)(f[i]);
    }
    forall i | 0 <= i < |ms| && ms[i].user == user && ms[i].active
      ensures ms[i] in r
    {
      assert OwnActiveMetric(user)(ms[i]);
      assert ms[i] in multiset(r);
    }
  }

  /** `get_queryset` as written: `get_or_create` with only `active` as default
      inserts a row whose NOT NULL values are missing, so the listing fails
      whenever the requester has no row for today. */
  function ListMetricsAsWritten(ms: seq<Metric>, user: int, today: int): (r: Result<seq<Metric>>)
    ensures r.Err? <==> FindMetric(ms, user, today) == None
    ensures r.Err? ==> r.failure == IntegrityError
    ensures r.Ok? ==> r.value == MetricListing(ms, user)
  {
    if FindMetric(ms, user, today) == None then Err(IntegrityError) else Ok(MetricListing(ms, user))
  }

  /** As written, a first visit of the metric listing always fails. */
  lemma FirstListingFailsAsWritten(user: int, today: int)
    ensures ListMetricsAsWritten([], user, today) == Err(IntegrityError)
  {
  }

  /** `get_queryset` as evidently intended: the row for today is created with
      the values 0, as `create` would with no values sent. */
  function EnsureToday(ms: seq<Metric>, nextId: int, user: int, today: int): (r: seq<Metric>)
    ensures FindMetric(r, user, today).Some?
    ensures MetricsUnique(ms) ==> MetricsUnique(r)
  {
    if FindMetric(ms, user, today) == None then Upsert(ms, nextId, user, today, MetricInput(None, None, None))
    else ms
  }

  /** The intended listing ensures today's row exists without changing any
      stored value: it is the upsert of no values. A first visit lists
      exactly the new zero row. */
  lemma {:induction false} EnsureTodayIsEmptyUpsert(ms: seq<Metric>, nextId: int, user: int, today: int)
    ensures EnsureToday(ms, nextId, user, today) == Upsert(ms, nextId, user, today, MetricInput(None, None, None))
    ensures MetricListing(EnsureToday([], nextId, user, today), user) == [ZeroRow(nextId, user, today)]
  {
    match FindMetric(ms, user, today)
    case None =>
    case Some(k) =>
      assert ms[k := Fill(ms[k], MetricInput(None, None, None))] == ms;
  }

  /* ================= HEALTH PROFILES ================= */

  /** The request's profile fields. */
  datatype ProfileInput = ProfileInput(height: int, weight: int, age: int, gender: Gender, goal: string)

  const ProfileExists: string := "User with this username already exists."

  predicate HasProfile(ps: seq<HealthProfile>, user: int) {
    exists i :: 0 <= i < |ps| && ps[i].user == user
  }

  /** `perform_create`: a second profile for the same user is refused before
      anything is saved; otherwise the profile is saved for the requester,
      which writes it only when height and weight are both non-zero. */
  function CreateProfile(ps: seq<HealthProfile>, nextId: int, user: int, input: ProfileInput)
    : (r: Result<seq<HealthProfile>>)
    ensures r.Err? <==> HasProfile(ps, user)
    ensures r.Err? ==> r.failure == ValidationError(ProfileExists)
    ensures r.Ok? ==> r.value == ps || (|r.value| == |ps| + 1 && r.value[..|ps|] == ps)
    ensures r.Ok? ==> (|r.value| == |ps| + 1 <==> input.height != 0 && input.weight != 0)
    ensures r.Ok? && |r.value| == |ps| + 1 ==>
      var p := r.value[|ps|];
      p.user == user && p.active && p.height == input.height && p.weight == input.weight
      && p.bmi == Some(Bmi(input.height, input.weight))
  {
    if HasProfile(ps, user) then Err(ValidationError(ProfileExists))
    else
      var draft := HealthProfile(nextId, user, input.height, input.weight, input.age, input.gender, input.goal, None, true);
      match SaveProfile(draft)
      case None => Ok(ps)
      case Some(p) => Ok(ps + [p])
  }

  /** Creating a profile never gives a user two. */
  lemma CreateProfileKeepsOnePerUser(ps: seq<HealthProfile>, nextId: int, user: int, input: ProfileInput)
    requires OneProfilePerUser(ps)
    ensures var r := CreateProfile(ps, nextId, user, input);
            r.Ok? ==> OneProfilePerUser(r.value)
  {
    var r := CreateProfile(ps, nextId, user, input);
    if r.Ok? && |r.value| == |ps| + 1 {
      UniqueByAppend(ps, ProfileOwner, r.value[|ps|]);
    }
  }

  /* ================= EXERCISE PLANS ================= */

  /** Whether a plan is listed for `user`: active and theirs. */
  function OwnActivePlan(user: int): Plan -> bool {
    (p: Plan) => p.active && p.user == user
  }

  /** `get_queryset` of the plan views: the requester's active plans, in
      table order. */
  function PlanListing(ps: seq<Plan>, user: int): (r: seq<Plan>)
    ensures forall i :: 0 <= i < |r| ==> r[i].active && r[i].user == user
    ensures forall i :: 0 <= i < |ps| && ps[i].active && ps[i].user == user ==> ps[i] in r
    ensures IsSubsequence(r, ps)
  {
    FilterIsSubsequence(ps, OwnActivePlan(user));
    Filter(ps, OwnActivePlan(user))
  }

  /** Every listed plan is an active plan of the requester, and every such
      plan is listed. */
  lemma PlanListingSpec(ps: seq<Plan>, user: int, p: Plan)
    ensures p in PlanListing(ps, user) <==> p in ps && p.active && p.user == user
  {
    var r := PlanListing(ps, user);
    if p in r {
      var i :| 0 <= i < |r| && r[i] == p;
      assert OwnActivePlan(user)(r[i]);
    }
    if p in ps && p.active && p.user == user {
      var i :| 0 <= i < |ps| && ps[i] == p;
      assert OwnActivePlan(user)(ps[i]);
    }
  }

  function Deactivated(p: Plan, id: int): Plan {
    if p.id == id then p.(active := false) else p
  }

  /** `perform_destroy`: the row with that id is kept, with `active` cleared. */
  function SoftDelete(ps: seq<Plan>, id: int): (r: seq<Plan>)
    ensures |r| == |ps|
    ensures forall i :: 0 <= i < |ps| ==> r[i].id == ps[i].id && r[i].user == ps[i].user
    ensures forall i :: 0 <= i < |ps| && ps[i].id == id ==> r[i] == ps[i].(active := false)
    ensures forall i :: 0 <= i < |ps| && ps[i].id != id ==> r[i] == ps[i]
  {
    if ps == [] then [] else [Deactivated(ps[0], id)] + SoftDelete(ps[1..], id)
  }

  function PlanIdIsNot(id: int): Plan -> bool {
    (p: Plan) => p.id != id
  }

  /** After the soft delete the listing is the former listing without that
      plan: it disappears, and every other plan stays, in order. */
  lemma {:induction false} DestroyHidesOnlyThatPlan(ps: seq<Plan>, id: int, user: int)
    ensures PlanListing(SoftDelete(ps, id), user) == Filter(PlanListing(ps, user), PlanIdIsNot(id))
  {
    if ps != [] {
      DestroyHidesOnlyThatPlan(ps[1..], id, user);
      var d := SoftDelete(ps, id);
      assert d[0] == Deactivated(ps[0], id) && d[1..] == SoftDelete(ps[1..], id);
      var l := PlanListing(ps, user);
      if OwnActivePlan(user)(ps[0]) {
        assert l[0] == ps[0] && l[1..] == PlanListing(ps[1..], user);
      }
    }
  }

  /** `destroy`: the plan is looked up in the requester's listing (not found
      otherwise, so nobody deletes another user's plan) and soft-deleted. */
  function DestroyPlan(ps: seq<Plan>, user: int, id: int): (r: Result<seq<Plan>>)
    ensures r.Err? <==> forall i :: 0 <= i < |ps| ==> !(ps[i].id == id && ps[i].active && ps[i].user == user)
    ensures r.Err? ==> r.failure == NotFound
    ensures r.Ok? ==> r.value == SoftDelete(ps, id)
  {
    if exists i :: 0 <= i < |ps| && ps[i].id == id && ps[i].active && ps[i].user == user
    then Ok(SoftDelete(ps, id)) else Err(NotFound)
  }

  /** `perform_create`: the plan is stored for the requester and active. It is
      listed for its creator at once. */
  lemma CreatedPlanListed(ps: seq<Plan>, nextId: int, user: int, name: string, date: int,
                          totalDuration: string, note: Option<string>)
    ensures var p := Plan(nextId, user, name, date, totalDuration, note, true);
            PlanListing(ps + [p], user) == PlanListing(ps, user) + [p]
  {
    var p := Plan(nextId, user, name, date, totalDuration, note, true);
    FilterSnoc(ps, p, OwnActivePlan(user));
  }

  lemma {:induction false} FilterSnoc<T>(xs: seq<T>, x: T, keep: T -> bool)
    ensures Filter(xs + [x], keep) == Filter(xs, keep) + (if keep(x) then [x] else [])
  {
    if xs != [] {
      assert (xs + [x])[0] == xs[0] && (xs + [x])[1..] == xs[1..] + [x];
      FilterSnoc(xs[1..], x, keep);
    }
  }

  /* ================= CONNECTIONS ================= */

  /** The user an expert record belongs to (expert ids are primary keys). */
  function ExpertUserOf(experts: seq<Expert>, expertId: int): (r: Option<int>)
    ensures r.Some? ==> exists i :: 0 <= i < |experts| && experts[i].id == expertId && experts[i].user == r.value
    ensures r == None <==> forall i :: 0 <= i < |experts| ==> experts[i].id != expertId
  {
    if experts == [] then None
    else if experts[|experts| - 1].id == expertId then Some(experts[|experts| - 1].user)
    else ExpertUserOf(experts[..|experts| - 1], expertId)
  }

  /** Whether a connection is listed for the signed-in `user` of `role`. */
  function VisibleTo(experts: seq<Expert>, user: int, role: Role): Connection -> bool {
    (c: Connection) => if role == USER then c.user == user else ExpertUserOf(experts, c.expert) == Some(user)
  }

  /** `get_queryset` of the connection views: for a USER the connections
      they made, for anyone else those made with their expert record. */
  function ConnectionListing(cs: seq<Connection>, experts: seq<Expert>, user: int, role: Role): (r: seq<Connection>)
    ensures role == USER ==> forall i :: 0 <= i < |r| ==> r[i].user == user
    ensures role != USER ==> forall i :: 0 <= i < |r| ==> ExpertUserOf(experts, r[i].expert) == Some(user)
    ensures IsSubsequence(r, cs)
  {
    FilterIsSubsequence(cs, VisibleTo(experts, user, role));
    Filter(cs, VisibleTo(experts, user, role))
  }

  /** A USER sees the connections they made; anyone else sees those made with
      their expert record. */
  lemma ConnectionVisibility(cs: seq<Connection>, experts: seq<Expert>, user: int, role: Role, c: Connection)
    ensures c in ConnectionListing(cs, experts, user, role) <==>
      c in cs && (if role == USER then c.user == user else ExpertUserOf(experts, c.expert) == Some(user))
  {
    var r := ConnectionListing(cs, experts, user, role);
    if c in r {
      var i :| 0 <= i < |r| && r[i] == c;
      assert VisibleTo(experts, user, role)(r[i]);
    }
    if c in cs && VisibleTo(experts, user, role)(c) {
      var i :| 0 <= i < |cs| && cs[i] == c;
      assert VisibleTo(experts, user, role)(cs[i]);
    }
  }

  const OnlyUsersConnect: string := "Chỉ USER được tạo kết nối"

  /** `perform_create`: only a USER may create a connection, and it is
      stored as theirs. */
  function CreateConnection(cs: seq<Connection>, nextId: int, user: int, role: Role, expertId: int)
    : (r: Result<seq<Connection>>)
    ensures r.Err? <==> role != USER
    ensures r.Err? ==> r.failure == PermissionDenied(OnlyUsersConnect)
    ensures r.Ok? ==> r.value == cs + [Connection(nextId, user, expertId)]
  {
    if role != USER then Err(PermissionDenied(OnlyUsersConnect))
    else Ok(cs + [Connection(nextId, user, expertId)])
  }

  /** The actions of a model view set. */
  datatype Action = List | Create | Retrieve | Update | PartialUpdate | Destroy

  /** `get_permissions`: one permission for create and partial update, which
      carry only a role check, and the sign-in check for every other action,
      with the party check added for retrieve and destroy. */
  function PermissionsFor(a: Action): (r: seq<Permission>)
    ensures 1 <= |r| <= 2
    ensures IsAuthenticated in r <==> a != Create && a != PartialUpdate
    ensures OwnerOrExpert in r <==> a == Retrieve || a == Destroy
    ensures UserOnly in r <==> a == Create
    ensures ExpertOnly in r <==> a == PartialUpdate
  {
    match a
    case Create => [UserOnly]
    case PartialUpdate => [ExpertOnly]
    case Retrieve => [IsAuthenticated, OwnerOrExpert]
    case Destroy => [IsAuthenticated, OwnerOrExpert]
    case _ => [IsAuthenticated]
  }

  /** Every permission of the action lets the request reach the view. */
  predicate Allowed(a: Action, r: Requester) {
    forall i :: 0 <= i < |PermissionsFor(a)| ==> HasPermission(PermissionsFor(a)[i], r)
  }

  /** Every permission of the action lets the request act on a connection of
      `owner` with an expert record of `expertUser`. */
  predicate ObjectAllowed(a: Action, r: Requester, owner: int, expertUser: int) {
    forall i :: 0 <= i < |PermissionsFor(a)| ==> HasObjectPermission(PermissionsFor(a)[i], r, owner, expertUser)
  }

  /** The dispatch, action by action: only a USER reaches create, so the role
      check of `perform_create` never refuses a request that got that far;
      only an EXPERT reaches a partial update; retrieve and destroy need a
      signed-in party to the connection; every other action needs only a
      signed-in requester. */
  lemma PermissionDispatch(a: Action, r: Requester, owner: int, expertUser: int,
                           cs: seq<Connection>, nextId: int, expertId: int)
    ensures a == Create ==> (Allowed(a, r) <==> IsUser(r))
    ensures a == Create && Allowed(a, r) ==> CreateConnection(cs, nextId, r.user, r.role, expertId).Ok?
    ensures a == PartialUpdate ==> (Allowed(a, r) <==> IsExpert(r)) && ObjectAllowed(a, r, owner, expertUser)
    ensures a == Retrieve || a == Destroy ==>
      (Allowed(a, r) && ObjectAllowed(a, r, owner, expertUser) <==> IsConnectionOwnerOrExpert(r, owner, expertUser))
    ensures a == List || a == Update ==>
      (Allowed(a, r) <==> r.Member?) && ObjectAllowed(a, r, owner, expertUser)
  {
    if a == Retrieve || a == Destroy {
      if IsConnectionOwnerOrExpert(r, owner, expertUser) {
        assert HasPermission(PermissionsFor(a)[0], r) && HasPermission(PermissionsFor(a)[1], r);
      }
      if Allowed(a, r) && ObjectAllowed(a, r, owner, expertUser) {
        assert HasObjectPermission(PermissionsFor(a)[1], r, owner, expertUser);
      }
    } else if a == Create {
      if Allowed(a, r) {
        assert HasPermission(PermissionsFor(a)[0], r);
      }
    } else if a == PartialUpdate {
      if Allowed(a, r) {
        assert HasPermission(PermissionsFor(a)[0], r);
      }
    } else if a == List || a == Update {
      if Allowed(a, r) {
        assert HasPermission(PermissionsFor(a)[0], r);
      }
    }
  }

  /** `get_object`'s lookup by primary key in a listing: the position of the
      first connection with that id, or the length when there is none. */
  method FirstWithId(listing: seq<Connection>, id: int) returns (i: nat)
    ensures i <= |listing|
    ensures i < |listing| ==> listing[i].id == id
    ensures forall j :: 0 <= j < i ==> listing[j].id != id
  {
    i := 0;
    while i < |listing| && listing[i].id != id
      invariant i <= |listing|
      invariant forall j :: 0 <= j < i ==> listing[j].id != id
    {
      i := i + 1;
    }
  }

  /** Every connection listed for a requester who may retrieve is stored,
      has an expert record when every stored one has, and passes the object
      check of retrieve: the requester is one of its two parties. */
  lemma ListedPassesObjectCheck(cs: seq<Connection>, experts: seq<Expert>, r: Requester, c: Connection)
    requires r.Member? && Allowed(Retrieve, r)
    requires forall i :: 0 <= i < |cs| ==> ExpertUserOf(experts, cs[i].expert).Some?
    requires c in ConnectionListing(cs, experts, r.user, r.role)
    ensures c in cs && ExpertUserOf(experts, c.expert).Some?
    ensures ObjectAllowed(Retrieve, r, c.user, ExpertUserOf(experts, c.expert).value)
    ensures IsConnectionOwnerOrExpert(r, c.user, ExpertUserOf(experts, c.expert).value)
  {
    ConnectionVisibility(cs, experts, r.user, r.role, c);
    var j :| 0 <= j < |cs| && cs[j] == c;
    var eu := ExpertUserOf(experts, c.expert).value;
    PermissionDispatch(Retrieve, r, c.user, eu, cs, 0, 0);
  }

  /** A partial update passes no object check, yet it reaches only the
      expert's own connections: the object is looked up in the listing,
      which for an expert holds only connections with their expert record. */
  lemma PartialUpdateReachesOwnOnly(cs: seq<Connection>, experts: seq<Expert>, r: Requester, c: Connection)
    requires r.Member? && Allowed(PartialUpdate, r)
    requires c in ConnectionListing(cs, experts, r.user, r.role)
    ensures ExpertUserOf(experts, c.expert) == Some(r.user)
  {
    assert HasPermission(PermissionsFor(PartialUpdate)[0], r);
    ConnectionVisibility(cs, experts, r.user, r.role, c);
  }

  /** What a refused permission raises: 401 without a signed-in user, 403
      otherwise. */
  function Refusal(r: Requester): (f: Failure)
    ensures f == NotAuthenticated <==> r.Anonymous?
    ensures r.Member? ==> f.PermissionDenied?
  {
    if r.Anonymous? then NotAuthenticated
    else PermissionDenied("You do not have permission to perform this action.")
  }

  /* ================= THE SERVER STATE ================= */

  /** The tables the handlers read and write. One counter hands out the
      primary keys of all tables. */
  class Backend {
    var users: seq<User>
    var profiles: seq<HealthProfile>
    var metrics: seq<Metric>
    var plans: seq<Plan>
    var experts: seq<Expert>
    var connections: seq<Connection>
    var nextId: int

    /** The table constraints the handlers keep (the expert table, which no
        handler writes, included: one record per user, one per id), and the
        foreign key from a connection to its expert record. */
    ghost predicate Valid()
      reads this
    {
      && MetricsUnique(metrics) && OneProfilePerUser(profiles) && EmailsUnique(users)
      && OneExpertPerUser(experts) && UniqueBy(experts, ExpertId)
      && forall i :: 0 <= i < |connections| ==> ExpertUserOf(experts, connections[i].expert).Some?
    }

    constructor (users: seq<User>, experts: seq<Expert>, nextId: int)
      requires EmailsUnique(users) && OneExpertPerUser(experts) && UniqueBy(experts, ExpertId)
      ensures Valid()
      ensures this.users == users && this.experts == experts && this.nextId == nextId
      ensures profiles == [] && metrics == [] && plans == [] && connections == []
    {
      this.users, this.experts, this.nextId := users, experts, nextId;
      profiles, metrics, plans, connections := [], [], [], [];
    }

    /** `get_current_user` for the `k`-th user, with the intended guard. The
        patched user is saved unless its e-mail is another user's. */
    method CurrentUser(k: nat, verb: string, data: seq<(string, string)>) returns (r: Result<User>)
      requires Valid() && k < |users|
      modifies this`users
      ensures Valid()
      ensures !PatchBranch(verb) ==> users == old(users) && r == Ok(users[k])
      ensures PatchBranch(verb) && EmailTaken(old(users), k, PatchUser(old(users)[k], data).email) ==>
        users == old(users) && r == Err(IntegrityError)
      ensures PatchBranch(verb) && !EmailTaken(old(users), k, PatchUser(old(users)[k], data).email) ==>
        users == old(users)[k := PatchUser(old(users)[k], data)] && r == Ok(users[k])
    {
      if !PatchBranch(verb) {
        return Ok(users[k]);
      }
      var u := ApplyPatch(users[k], data);
      if exists j :: 0 <= j < |users| && j != k && users[j].email == u.email {
        return Err(IntegrityError);
      }
      users := users[k := u];
      r := Ok(u);
    }

    /** `create` of the metric views: always answered with 200 and the row
        for (me, today). */
    method PostMetric(me: int, today: int, input: MetricInput) returns (m: Metric)
      requires Valid()
      modifies this`metrics, this`nextId
      ensures Valid()
      ensures metrics == Upsert(old(metrics), old(nextId), me, today, input)
      ensures FindMetric(metrics, me, today).Some? && m == metrics[FindMetric(metrics, me, today).value]
      ensures nextId == old(nextId) + (if FindMetric(old(metrics), me, today) == None then 1 else 0)
    {
      var created := FindMetric(metrics, me, today) == None;
      metrics := Upsert(metrics, nextId, me, today, input);
      UpsertStoresToday(old(metrics), nextId, me, today, input);
      m := metrics[FindMetric(metrics, me, today).value];
      if created {
        nextId := nextId + 1;
      }
    }

    /** `list` of the metric views, with the intended zero defaults. */
    method GetMetrics(me: int, today: int) returns (listing: seq<Metric>)
      requires Valid()
      modifies this`metrics, this`nextId
      ensures Valid()
      ensures metrics == EnsureToday(old(metrics), old(nextId), me, today)
      ensures nextId == old(nextId) + (if FindMetric(old(metrics), me, today) == None then 1 else 0)
      ensures listing == MetricListing(metrics, me)
    {
      if FindMetric(metrics, me, today) == None {
        metrics := EnsureToday(metrics, nextId, me, today);
        nextId := nextId + 1;
      }
      listing := MetricListing(metrics, me);
    }

    /** `create` of the profile views. */
    method PostProfile(me: int, input: ProfileInput) returns (r: Result<seq<HealthProfile>>)
      requires Valid()
      modifies this`profiles, this`nextId
      ensures Valid()
      ensures r == CreateProfile(old(profiles), old(nextId), me, input)
      ensures r.Ok? ==> profiles == r.value
      ensures r.Err? ==> profiles == old(profiles)
      ensures nextId == old(nextId) + |profiles| - |old(profiles)|
    {
      r := CreateProfile(profiles, nextId, me, input);
      CreateProfileKeepsOnePerUser(profiles, nextId, me, input);
      if r.Ok? {
        nextId := nextId + |r.value| - |profiles|;
        profiles := r.value;
      }
    }

    /** `create` of the plan views: the plan is stored as the requester's. */
    method PostPlan(me: int, name: string, date: int, totalDuration: string, note: Option<string>)
      returns (p: Plan)
      requires Valid()
      modifies this`plans, this`nextId
      ensures Valid()
      ensures p == Plan(old(nextId), me, name, date, totalDuration, note, true)
      ensures plans == old(plans) + [p] && nextId == old(nextId) + 1
      ensures PlanListing(plans, me) == PlanListing(old(plans), me) + [p]
    {
      p := Plan(nextId, me, name, date, totalDuration, note, true);
      CreatedPlanListed(plans, nextId, me, name, date, totalDuration, note);
      plans := plans + [p];
      nextId := nextId + 1;
    }

    /** `destroy` of the plan views. */
    method DeletePlan(me: int, id: int) returns (r: Result<()>)
      requires Valid()
      modifies this`plans
      ensures Valid()
      ensures var d := DestroyPlan(old(plans), me, id);
              (d.Ok? ==> plans == d.value && r == Ok(())) && (d.Err? ==> plans == old(plans) && r == Err(d.failure))
      ensures PlanListing(plans, me) == Filter(PlanListing(old(plans), me), PlanIdIsNot(id))
    {
      var d := DestroyPlan(plans, me, id);
      if d.Err? {
        FilterAllKept(PlanListing(plans, me), id);
        return Err(d.failure);
      }
      DestroyHidesOnlyThatPlan(plans, id, me);
      plans := d.value;
      r := Ok(());
    }

    /** `create` of the connection views, permission check included. */
    method PostConnection(r: Requester, expertId: int) returns (res: Result<Connection>)
      requires Valid()
      requires ExpertUserOf(experts, expertId).Some?
      modifies this`connections, this`nextId
      ensures Valid()
      ensures !Allowed(Create, r) ==> res == Err(Refusal(r)) && connections == old(connections)
      ensures Allowed(Create, r) ==>
        && r.Member?
        && res == Ok(Connection(old(nextId), r.user, expertId))
        && connections == old(connections) + [res.value] && nextId == old(nextId) + 1
    {
      if !Allowed(Create, r) {
        return Err(Refusal(r));
      }
      PermissionDispatch(Create, r, 0, 0, connections, nextId, expertId);
      var made := CreateConnection(connections, nextId, r.user, r.role, expertId);
      connections := made.value;
      res := Ok(Connection(nextId, r.user, expertId));
      nextId := nextId + 1;
    }

    /** `retrieve` of the connection views: the permission check, then the
        lookup in the requester's listing (not found there: 404). The object
        check that follows always passes: the requester is a party to every
        connection listed for them. */
    method GetConnection(r: Requester, id: int) returns (res: Result<Connection>)
      requires Valid()
      ensures !Allowed(Retrieve, r) ==> res == Err(Refusal(r))
      ensures r.Member? && Allowed(Retrieve, r) ==>
        var listing := ConnectionListing(connections, experts, r.user, r.role);
        && (res == Err(NotFound) <==> forall i :: 0 <= i < |listing| ==> listing[i].id != id)
        && ((exists i :: 0 <= i < |listing| && listing[i].id == id) ==>
              res.Ok? && res.value in listing && res.value.id == id)
      ensures res.Ok? ==>
        && res.value.id == id && res.value in connections
        && ExpertUserOf(experts, res.value.expert).Some?
        && IsConnectionOwnerOrExpert(r, res.value.user, ExpertUserOf(experts, res.value.expert).value)
    {
      if !Allowed(Retrieve, r) {
        return Err(Refusal(r));
      }
      assert HasPermission(PermissionsFor(Retrieve)[0], r);
      var listing := ConnectionListing(connections, experts, r.user, r.role);
      var i := FirstWithId(listing, id);
      if i == |listing| {
        return Err(NotFound);
      }
      var c := listing[i];
      ListedPassesObjectCheck(connections, experts, r, c);
      res := Ok(c);
    }
  }

  /** A filter that keeps everything changes nothing. */
  lemma {:induction false} FilterAllKept(ps: seq<Plan>, id: int)
    requires forall i :: 0 <= i < |ps| ==> ps[i].id != id
    ensures Filter(ps, PlanIdIsNot(id)) == ps
  {
    if ps != [] {
      FilterAllKept(ps[1..], id);
    }
  }
}
