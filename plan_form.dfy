/** The exercise-plan component (components/ExercisePlan.js): the map of
    selected exercises, the plan form's validation chain, the one request per
    selected exercise that follows a created plan, and deletion. */
module PlanForm {
  import opened Common

  /** One selected exercise's two inputs; a field never written is `None`
      (`undefined` in the source). */
  datatype Entry = Entry(repetitions: Option<string>, duration: Option<string>)

  /** The `field` argument of `updateExerciseField`. */
  datatype Field = Repetitions | Duration

  /** `selectedExercises`, keyed by exercise id. */
  type Selection = map<nat, Entry>

  const EmptyEntry: Entry := Entry(Some(""), Some(""))

  /* ================= TOGGLE / UPDATE ================= */

  /** `toggleExercise(id)`: a selected id is dropped, an unselected one is
      added with both inputs empty; no other key is touched. */
  function Toggle(sel: Selection, id: nat): (r: Selection)
    ensures id in r <==> id !in sel
    ensures id in r ==> r[id] == EmptyEntry
    ensures forall k :: k != id ==> (k in r <==> k in sel)
    ensures forall k :: k in sel && k != id ==> r[k] == sel[k]
  {
    if id in sel then sel - {id} else sel[id := EmptyEntry]
  }

  /** Toggling an unselected exercise twice gives back the same selection. */
  lemma ToggleTwiceAbsent(sel: Selection, id: nat)
    requires id !in sel
    ensures Toggle(Toggle(sel, id), id) == sel
  {
    var r := Toggle(Toggle(sel, id), id);
    assert r.Keys == sel.Keys;
  }

  /** Toggling a selected exercise twice keeps it selected but empties its inputs. */
  lemma ToggleTwicePresent(sel: Selection, id: nat)
    requires id in sel
    ensures Toggle(Toggle(sel, id), id) == sel[id := EmptyEntry]
  {
    var r := Toggle(Toggle(sel, id), id);
    assert r.Keys == sel.Keys;
  }

  /** `updateExerciseField(id, field, value)`: `{...prev, [id]: {...prev[id], [field]: value}}`.
      Spreading a missing entry gives an object with only the written field. */
  function UpdateField(sel: Selection, id: nat, field: Field, value: string): (r: Selection)
    ensures r.Keys == sel.Keys + {id}
    ensures field == Repetitions ==>
      r[id].repetitions == Some(value) && r[id].duration == (if id in sel then sel[id].duration else None)
    ensures field == Duration ==>
      r[id].duration == Some(value) && r[id].repetitions == (if id in sel then sel[id].repetitions else None)
    ensures forall k :: k in sel && k != id ==> r[k] == sel[k]
  {
    var prev := if id in sel then sel[id] else Entry(None, None);
    sel[id := match field
              case Repetitions => prev.(repetitions := Some(value))
              case Duration => prev.(duration := Some(value))]
  }

  /** The last keystroke wins: writing a field twice is writing it once. */
  lemma UpdateLastWins(sel: Selection, id: nat, field: Field, v1: string, v2: string)
    ensures UpdateField(UpdateField(sel, id, field, v1), id, field, v2) == UpdateField(sel, id, field, v2)
  {
    var a := UpdateField(UpdateField(sel, id, field, v1), id, field, v2);
    var b := UpdateField(sel, id, field, v2);
    assert a.Keys == b.Keys;
  }

  /** Filling both inputs of a freshly ticked exercise makes it complete. */
  lemma ToggleThenFill(sel: Selection, id: nat, reps: string, minutes: string)
    requires id !in sel && reps != "" && minutes != ""
    ensures Complete(UpdateField(UpdateField(Toggle(sel, id), id, Repetitions, reps), id, Duration, minutes)[id])
  {
  }

  /* ================= VALIDATE ================= */

  /** `ex.repetitions && ex.duration`: both inputs present and non-empty. */
  predicate Complete(e: Entry) {
    e.repetitions.Some? && e.repetitions.value != "" && e.duration.Some? && e.duration.value != ""
  }

  /** The alerts `handleAddPlan` can stop with, in the order it checks them. */
  datatype PlanError = NameMissing | DateMissing | NothingSelected | EntryIncomplete

  /** The validation chain: name, date, an empty selection, then any selected
      exercise without both inputs. */
  ghost function ValidationError(name: string, date: string, sel: Selection): (r: Option<PlanError>)
    ensures r == None <==> !IsBlank(name) && !IsBlank(date) && |sel| > 0 && forall k :: k in sel ==> Complete(sel[k])
    ensures IsBlank(name) ==> r == Some(NameMissing)
    ensures !IsBlank(name) && IsBlank(date) ==> r == Some(DateMissing)
    ensures r == Some(EntryIncomplete) ==> exists k :: k in sel && !Complete(sel[k])
  {
    if IsBlank(name) then Some(NameMissing)
    else if IsBlank(date) then Some(DateMissing)
    else if |sel| == 0 then Some(NothingSelected)
    else if exists k :: k in sel && !Complete(sel[k]) then Some(EntryIncomplete)
    else None
  }

  /** The `for...in` check of `handleAddPlan`: it stops at the first entry
      without both inputs. */
  method AllComplete(sel: Selection) returns (ok: bool)
    ensures ok <==> forall k :: k in sel ==> Complete(sel[k])
  {
    var remaining := sel.Keys;
    while remaining != {}
      invariant remaining <= sel.Keys
      invariant forall k :: k in sel.Keys - remaining ==> Complete(sel[k])
      decreases |remaining|
    {
      var exId :| exId in remaining;
      if !Complete(sel[exId]) {
        return false;
      }
      remaining := remaining - {exId};
    }
    return true;
  }

  /* ================= PAYLOADS ================= */

  function DigitValue(c: char): nat
    requires '0' <= c <= '9'
  {
    (c as int) - ('0' as int)
  }

  predicate AllDigits(s: string) {
    forall i :: 0 <= i < |s| ==> '0' <= s[i] <= '9'
  }

  function DecimalValue(s: string): nat
    requires AllDigits(s)
  {
    if s == [] then 0 else 10 * DecimalValue(s[..|s| - 1]) + DigitValue(s[|s| - 1])
  }

  /** `Number(s)` on an input: blank is 0 and a string of decimal digits
      (ignoring surrounding white space) is its value; anything else is taken
      as NaN (`None`); see README for the numeric forms left out. */
  function NumberOf(v: Option<string>): (r: Option<int>)
    ensures v.None? ==> r.None?
    ensures v.Some? && IsBlank(v.value) ==> r == Some(0)
    ensures v.Some? && v.value != "" && AllDigits(v.value) ==> r == Some(DecimalValue(v.value))
    ensures r.Some? ==> r.value >= 0
  {
    match v
    case None => None
    case Some(s) =>
      TrimEmptyIffBlank(s);
      DigitsTrimToThemselves(s);
      var t := Trim(s);
      if AllDigits(t) then Some(DecimalValue(t)) else None
  }

  /** A string of digits has no white space to trim. */
  lemma DigitsTrimToThemselves(s: string)
    ensures s != "" && AllDigits(s) ==> Trim(s) == s
  {
    if s != "" && AllDigits(s) {
      assert !IsSpace(s[0]) && !IsSpace(s[|s| - 1]);
      assert TrimStart(s) == s;
    }
  }

  /** The body posted to `add_exercise_to_plan(planId)` for one exercise. */
  datatype LinkPayload = LinkPayload(planId: int, exerciseId: nat, repetitions: Option<int>, duration: Option<int>)

  /** The payload for exercise `k` (every key visited is in `sel`). */
  function PayloadFor(planId: int, sel: Selection, k: nat): (r: LinkPayload)
    ensures r.planId == planId && r.exerciseId == k
    ensures k in sel ==> r.repetitions == NumberOf(sel[k].repetitions) && r.duration == NumberOf(sel[k].duration)
    ensures k !in sel ==> r.repetitions == None && r.duration == None
  {
    var e := if k in sel then sel[k] else Entry(None, None);
    LinkPayload(planId, k, NumberOf(e.repetitions), NumberOf(e.duration))
  }

  function Payloads(planId: int, sel: Selection, keys: seq<nat>): (r: seq<LinkPayload>)
    ensures |r| == |keys|
    ensures forall i :: 0 <= i < |keys| ==> r[i] == PayloadFor(planId, sel, keys[i])
  {
    if keys == [] then [] else [PayloadFor(planId, sel, keys[0])] + Payloads(planId, sel, keys[1..])
  }

  /** A non-empty set of ids has a least element: from any member, step down
      to a smaller one until there is none. */
  lemma {:induction false} LeastExists(s: set<nat>, x: nat)
    requires x in s
    ensures exists m :: m in s && forall k :: k in s ==> m <= k
    decreases x
  {
    if exists y :: y in s && y < x {
      var y :| y in s && y < x;
      LeastExists(s, y);
    } else {
      assert forall k :: k in s ==> x <= k;
    }
  }

  /** The least id of a non-empty set. */
  function Least(s: set<nat>): (m: nat)
    requires s != {}
    ensures m in s && forall k :: k in s ==> m <= k
  {
    var x :| x in s;
    LeastExists(s, x);
    var m :| m in s && forall k :: k in s ==> m <= k; m
  }

  /** The order `for...in` visits integer keys in: ascending. */
  function Ascending(s: set<nat>): (r: seq<nat>)
    ensures |r| == |s|
    ensures forall i :: 0 <= i < |r| ==> r[i] in s
    ensures forall k :: k in s ==> k in r
    decreases |s|
  {
    if s == {} then [] else [Least(s)] + Ascending(s - {Least(s)})
  }

  /** The visiting order is strictly increasing, so no id is visited twice. */
  lemma {:induction false} AscendingIsSorted(s: set<nat>)
    ensures forall i, j :: 0 <= i < j < |Ascending(s)| ==> Ascending(s)[i] < Ascending(s)[j]
    decreases |s|
  {
    if s != {} {
      var m := Least(s);
      var rest := Ascending(s - {m});
      AscendingIsSorted(s - {m});
      assert forall j :: 0 <= j < |rest| ==> m < rest[j] by {
        assert forall j :: 0 <= j < |rest| ==> rest[j] in s - {m};
      }
      assert Ascending(s) == [m] + rest;
    }
  }

  /** The keys whose request is sent: in order, up to and including the first
      one whose request is rejected (the `await` throws there). */
  function SentKeys(keys: seq<nat>, rejected: set<nat>): (r: seq<nat>)
    ensures |r| <= |keys| && r == keys[..|r|]
  {
    if keys == [] then []
    else if keys[0] in rejected then [keys[0]]
    else [keys[0]] + SentKeys(keys[1..], rejected)
  }

  /** With no rejection every key is sent. */
  lemma {:induction false} SentKeysAll(keys: seq<nat>, rejected: set<nat>)
    requires forall i :: 0 <= i < |keys| ==> keys[i] !in rejected
    ensures SentKeys(keys, rejected) == keys
  {
    if keys != [] {
      SentKeysAll(keys[1..], rejected);
    }
  }

  /** The first rejected key ends the sent keys. */
  lemma {:induction false} SentKeysUpTo(keys: seq<nat>, rejected: set<nat>, i: nat)
    requires i < |keys| && keys[i] in rejected
    requires forall j :: 0 <= j < i ==> keys[j] !in rejected
    ensures SentKeys(keys, rejected) == keys[..i + 1]
  {
    if i > 0 {
      SentKeysUpTo(keys[1..], rejected, i - 1);
      assert keys[..i + 1] == [keys[0]] + keys[1..][..i];
    }
  }

  lemma PayloadsSnoc(planId: int, sel: Selection, keys: seq<nat>, k: nat)
    ensures Payloads(planId, sel, keys + [k]) == Payloads(planId, sel, keys) + [PayloadFor(planId, sel, k)]
  {
    var l := Payloads(planId, sel, keys + [k]);
    var r := Payloads(planId, sel, keys) + [PayloadFor(planId, sel, k)];
    assert forall i :: 0 <= i < |l| ==> l[i] == r[i];
  }

  /** The `for...in` of `handleAddPlan` after the plan was created: one POST per
      selected exercise, in ascending id order; the first rejected request
      throws and ends the loop. `failed` tells whether that happened. */
  method SendLinks(planId: int, sel: Selection, keys: seq<nat>, rejected: set<nat>)
    returns (links: seq<LinkPayload>, failed: bool)
    ensures links == Payloads(planId, sel, SentKeys(keys, rejected))
    ensures failed <==> exists j :: 0 <= j < |keys| && keys[j] in rejected
  {
    links, failed := [], false;
    for i := 0 to |keys|
      invariant links == Payloads(planId, sel, keys[..i])
      invariant forall j :: 0 <= j < i ==> keys[j] !in rejected
    {
      PayloadsStep(planId, sel, keys, i);
      links := links + [PayloadFor(planId, sel, keys[i])];
      if keys[i] in rejected {
        SentKeysUpTo(keys, rejected, i);
        failed := true;
        return;
      }
    }
    assert keys[..|keys|] == keys;
    SentKeysAll(keys, rejected);
  }

  lemma PayloadsStep(planId: int, sel: Selection, keys: seq<nat>, i: nat)
    requires i < |keys|
    ensures Payloads(planId, sel, keys[..i + 1]) == Payloads(planId, sel, keys[..i]) + [PayloadFor(planId, sel, keys[i])]
  {
    assert keys[..i + 1] == keys[..i] + [keys[i]];
    PayloadsSnoc(planId, sel, keys[..i], keys[i]);
  }

  /** Some visited key is rejected exactly when some key of the set is. */
  lemma RejectedVisited(s: set<nat>, rejected: set<nat>)
    ensures (exists j :: 0 <= j < |Ascending(s)| && Ascending(s)[j] in rejected) <==> !(s !! rejected)
  {
    var keys := Ascending(s);
    if !(s !! rejected) {
      var k :| k in s && k in rejected;
      var j :| 0 <= j < |keys| && keys[j] == k;
      assert 0 <= j < |Ascending(s)| && Ascending(s)[j] in rejected;
    }
    if exists j :: 0 <= j < |keys| && keys[j] in rejected {
      var j :| 0 <= j < |keys| && keys[j] in rejected;
      assert keys[j] in s * rejected;
    }
  }

  /** A plan whose every link request succeeds sends exactly one payload per
      selected exercise, in ascending id order, each for that exercise. */
  lemma OnePayloadPerExercise(planId: int, sel: Selection, rejected: set<nat>)
    requires sel.Keys !! rejected
    ensures var r := Payloads(planId, sel, SentKeys(Ascending(sel.Keys), rejected));
            && |r| == |sel.Keys|
            && (forall i :: 0 <= i < |r| ==> r[i].exerciseId in sel && r[i] == PayloadFor(planId, sel, r[i].exerciseId))
            && (forall i, j :: 0 <= i < j < |r| ==> r[i].exerciseId < r[j].exerciseId)
            && (forall k :: k in sel ==> PayloadFor(planId, sel, k) in r)
  {
    var asc := Ascending(sel.Keys);
    SentKeysAll(asc, rejected);
    AscendingIsSorted(sel.Keys);
    var r := Payloads(planId, sel, asc);
    forall k | k in sel
      ensures PayloadFor(planId, sel, k) in r
    {
      var i :| 0 <= i < |asc| && asc[i] == k;
      assert r[i] == PayloadFor(planId, sel, k);
    }
  }

  /* ================= PLANS ================= */

  datatype Plan = Plan(id: int, name: string, date: string, totalDuration: string, note: string)

  /** The body of the plan POST. */
  datatype PlanDraft = PlanDraft(name: string, date: string, totalDuration: string, note: string)

  const DefaultDuration: string := "60 phút"

  function PlanIdIsNot(id: int): Plan -> bool {
    (p: Plan) => p.id != id
  }

  /** `prev.filter(p => p.id !== id)`. */
  function WithoutPlan(plans: seq<Plan>, id: int): (r: seq<Plan>)
    ensures forall i :: 0 <= i < |r| ==> r[i].id != id
    ensures forall i :: 0 <= i < |plans| && plans[i].id != id ==> plans[i] in r
    ensures IsSubsequence(r, plans)
    ensures |r| == CountIf(plans, PlanIdIsNot(id))
  {
    FilterIsSubsequence(plans, PlanIdIsNot(id));
    FilterLength(plans, PlanIdIsNot(id));
    Filter(plans, PlanIdIsNot(id))
  }

  /** The four text inputs of the plan form; as a whole, the POSTed body. */
  const EmptyDraft: PlanDraft := PlanDraft("", "", DefaultDuration, "")

  /** Whether `handleAddPlan` ran to its end: valid, the plan created and no
      link request rejected. */
  ghost predicate AddCompleted(draft: PlanDraft, sel: Selection, created: Option<Plan>, rejected: set<nat>) {
    ValidationError(draft.name, draft.date, sel) == None && created.Some? && sel.Keys !! rejected
  }

  class PlanScreen {
    var plans: seq<Plan>
    var selected: Selection
    var modalVisible: bool
    var draft: PlanDraft

    /** The initial state: no plans, nothing selected, an empty form with the
        default duration "60 phút". */
    constructor ()
      ensures plans == [] && selected == map[] && !modalVisible && draft == EmptyDraft
    {
      plans, selected, modalVisible, draft := [], map[], false, EmptyDraft;
    }

    /** The loaded list of plans replaces the current one. */
    method Loaded(fetched: seq<Plan>)
      modifies this`plans
      ensures plans == fetched
    {
      plans := fetched;
    }

    method OpenModal()
      modifies this`modalVisible
      ensures modalVisible
    {
      modalVisible := true;
    }

    /** Typing in the four text inputs. */
    method TypeForm(name: string, date: string, totalDuration: string, note: string)
      modifies this`draft
      ensures draft == PlanDraft(name, date, totalDuration, note)
    {
      draft := PlanDraft(name, date, totalDuration, note);
    }

    /** The checkbox of exercise `id`. */
    method ToggleExercise(id: nat)
      modifies this`selected
      ensures selected == Toggle(old(selected), id)
    {
      if id in selected {
        selected := selected - {id};
      } else {
        selected := selected[id := EmptyEntry];
      }
    }

    /** One of the two inputs of exercise `id`. */
    method UpdateExerciseField(id: nat, field: Field, value: string)
      modifies this`selected
      ensures selected == UpdateField(old(selected), id, field, value)
    {
      selected := UpdateField(selected, id, field, value);
    }

    /** The checks at the top of `handleAddPlan`, the last one a `for...in`
        over the selection that stops at the first incomplete entry. */
    method Validate() returns (err: Option<PlanError>)
      ensures err == ValidationError(draft.name, draft.date, selected)
    {
      TrimEmptyIffBlank(draft.name);
      TrimEmptyIffBlank(draft.date);
      if Trim(draft.name) == "" {
        return Some(NameMissing);
      }
      if Trim(draft.date) == "" {
        return Some(DateMissing);
      }
      if |selected.Keys| == 0 {
        return Some(NothingSelected);
      }
      var ok := AllComplete(selected);
      if !ok {
        return Some(EntryIncomplete);
      }
      err := None;
    }

    /** `handleAddPlan`. On a validation error nothing is sent. Otherwise the
        plan is POSTed; when that succeeds one link payload is sent per
        selected exercise in ascending id order, stopping at the first
        rejected one. Only when every request succeeds is the new plan put
        first, the form reset (name, date and note to "", the duration to
        "60 phút", the selection to {}) and the modal closed; otherwise the
        screen is left as it was. */
    method AddPlan(created: Option<Plan>, rejected: set<nat>)
      returns (err: Option<PlanError>, planPost: Option<PlanDraft>, links: seq<LinkPayload>)
      modifies this`plans, this`modalVisible, this`draft, this`selected
      ensures err == ValidationError(old(draft).name, old(draft).date, old(selected))
      ensures planPost == if err == None then Some(old(draft)) else None
      ensures links == if err == None && created.Some?
                       then Payloads(created.value.id, old(selected), SentKeys(Ascending(old(selected).Keys), rejected))
                       else []
      ensures AddCompleted(old(draft), old(selected), created, rejected) ==>
        plans == [created.value] + old(plans) && !modalVisible && draft == EmptyDraft && selected == map[]
      ensures !AddCompleted(old(draft), old(selected), created, rejected) ==>
        plans == old(plans) && modalVisible == old(modalVisible) && draft == old(draft) && selected == old(selected)
    {
      err := Validate();
      if err.Some? {
        return err, None, [];
      }
      planPost := Some(draft);
      links := Submit(created, rejected);
    }

    /** The part of `handleAddPlan` after validation: the link requests once
        the plan exists, then the reset when none was rejected. */
    method Submit(created: Option<Plan>, rejected: set<nat>) returns (links: seq<LinkPayload>)
      modifies this`plans, this`modalVisible, this`draft, this`selected
      ensures links == if created.Some?
                       then Payloads(created.value.id, old(selected), SentKeys(Ascending(old(selected).Keys), rejected))
                       else []
      ensures created.Some? && old(selected).Keys !! rejected ==>
        plans == [created.value] + old(plans) && !modalVisible && draft == EmptyDraft && selected == map[]
      ensures !(created.Some? && old(selected).Keys !! rejected) ==>
        plans == old(plans) && modalVisible == old(modalVisible) && draft == old(draft) && selected == old(selected)
    {
      if created == None {
        return [];
      }
      var failed;
      links, failed := SendLinks(created.value.id, selected, Ascending(selected.Keys), rejected);
      RejectedVisited(selected.Keys, rejected);
      if failed {
        return;
      }
      plans := [created.value] + plans;
      modalVisible := false;
      draft := EmptyDraft;
      selected := map[];
    }

    /** `handleDeletePlan`: nothing unless the alert is confirmed; then the
        DELETE is sent and, when it succeeds, plans with that id are removed. */
    method DeletePlan(id: int, confirmed: bool, succeeded: bool) returns (req: Option<int>)
      modifies this`plans
      ensures req == if confirmed then Some(id) else None
      ensures plans == if confirmed && succeeded then WithoutPlan(old(plans), id) else old(plans)
    {
      if !confirmed {
        return None;
      }
      req := Some(id);
      if succeeded {
        plans := WithoutPlan(plans, id);
      }
    }
  }
}
