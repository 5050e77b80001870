/** The exercise list component (components/Exercise.js): paginated loading,
    "load more", and the add, delete and edit handlers with their name guards. */
module ExerciseList {
  import opened Common

  datatype Exercise = Exercise(id: int, name: string, description: string)

  /** One page of the paginated listing: its `results` and whether `next` is set. */
  datatype PageResponse = PageResponse(results: seq<Exercise>, hasNext: bool)

  /** The requests the component sends. */
  datatype Request =
    | GetPage(page: nat)
    | PostExercise(name: string, description: string)
    | DeleteExercise(id: int)
    | PatchExercise(id: int, name: string, description: string)

  /* ================= LIST TRANSFORMS ================= */

  /** The list once page `page`'s results arrive: page 1 replaces it, any
      later page is appended. */
  function MergePage(current: seq<Exercise>, page: nat, results: seq<Exercise>): (r: seq<Exercise>)
    ensures |r| == (if page == 1 then 0 else |current|) + |results|
    ensures r[|r| - |results|..] == results
    ensures page != 1 ==> r[..|current|] == current
  {
    if page == 1 then results else current + results
  }

  /** The list after pages 1, 2, ... |pages| have been loaded one after the
      other: every result of every page is shown. */
  function AfterPages(pages: seq<seq<Exercise>>): (r: seq<Exercise>)
    ensures forall k, i :: 0 <= k < |pages| && 0 <= i < |pages[k]| ==> pages[k][i] in r
  {
    if pages == [] then []
    else
      var init := pages[..|pages| - 1];
      var r := MergePage(AfterPages(init), |pages|, pages[|pages| - 1]);
      assert forall k :: 0 <= k < |init| ==> init[k] == pages[k];
      r
  }

  /** The pages joined in order: the reference for what loading should show. */
  function Concat(pages: seq<seq<Exercise>>): seq<Exercise> {
    if pages == [] then [] else pages[0] + Concat(pages[1..])
  }

  lemma {:induction false} ConcatSnoc(pages: seq<seq<Exercise>>, last: seq<Exercise>)
    ensures Concat(pages + [last]) == Concat(pages) + last
  {
    if pages == [] {
      assert [] + [last] == [last];
    } else {
      assert (pages + [last])[0] == pages[0];
      assert (pages + [last])[1..] == pages[1..] + [last];
      ConcatSnoc(pages[1..], last);
    }
  }

  /** Loading pages in order shows every result of every page, page 1 first. */
  lemma {:induction false} AfterPagesIsConcat(pages: seq<seq<Exercise>>)
    ensures AfterPages(pages) == Concat(pages)
  {
    if pages != [] {
      var init := pages[..|pages| - 1];
      AfterPagesIsConcat(init);
      ConcatSnoc(init, pages[|pages| - 1]);
      assert init + [pages[|pages| - 1]] == pages;
      if |pages| == 1 {
        assert init == [];
      }
    }
  }

  function IdIsNot(id: int): Exercise -> bool {
    (e: Exercise) => e.id != id
  }

  /** `prev.filter(item => item.id !== id)`. */
  function WithoutId(xs: seq<Exercise>, id: int): (r: seq<Exercise>)
    ensures forall i :: 0 <= i < |r| ==> r[i].id != id
    ensures forall i :: 0 <= i < |xs| && xs[i].id != id ==> xs[i] in r
    ensures IsSubsequence(r, xs)
    ensures |r| == CountIf(xs, IdIsNot(id))
  {
    FilterIsSubsequence(xs, IdIsNot(id));
    FilterLength(xs, IdIsNot(id));
    Filter(xs, IdIsNot(id))
  }

  /** Deleting an id that is no longer listed changes nothing. */
  lemma {:induction false} WithoutAbsentId(xs: seq<Exercise>, id: int)
    requires forall i :: 0 <= i < |xs| ==> xs[i].id != id
    ensures WithoutId(xs, id) == xs
  {
    if xs != [] {
      assert forall i :: 0 <= i < |xs[1..]| ==> xs[1..][i] == xs[i + 1];
      WithoutAbsentId(xs[1..], id);
    }
  }

  /** Deleting twice is deleting once. */
  lemma DeleteIdempotent(xs: seq<Exercise>, id: int)
    ensures WithoutId(WithoutId(xs, id), id) == WithoutId(xs, id)
  {
    WithoutAbsentId(WithoutId(xs, id), id);
  }

  /** `prev.map(item => item.id === id ? updated : item)`. */
  function ReplaceById(xs: seq<Exercise>, id: int, updated: Exercise): (r: seq<Exercise>)
    ensures |r| == |xs|
    ensures forall i :: 0 <= i < |xs| && xs[i].id != id ==> r[i] == xs[i]
    ensures forall i :: 0 <= i < |xs| && xs[i].id == id ==> r[i] == updated
  {
    seq(|xs|, i requires 0 <= i < |xs| => if xs[i].id == id then updated else xs[i])
  }

  /** When the server echoes the edited record with its own id, the list keeps
      exactly the same ids in the same positions. */
  lemma ReplaceKeepsIds(xs: seq<Exercise>, updated: Exercise)
    ensures var r := ReplaceById(xs, updated.id, updated);
            forall i :: 0 <= i < |xs| ==> r[i].id == xs[i].id
  {
  }

  /** Replacing with an id nobody has changes nothing. */
  lemma ReplaceAbsentId(xs: seq<Exercise>, id: int, updated: Exercise)
    requires forall i :: 0 <= i < |xs| ==> xs[i].id != id
    ensures ReplaceById(xs, id, updated) == xs
  {
  }

  /* ================= COMPONENT STATE ================= */

  class ExerciseScreen {
    var exercises: seq<Exercise>
    var page: nat
    var loading: bool

    // the add modal
    var modalVisible: bool
    var newName: string
    var newDescription: string

    // the edit modal
    var editModalVisible: bool
    var selectedExercise: Option<Exercise>
    var editName: string
    var editDescription: string

    /** The initial state: an empty list on page 1, nothing loading, both modals closed. */
    constructor ()
      ensures exercises == [] && page == 1 && !loading
      ensures !modalVisible && newName == "" && newDescription == ""
      ensures !editModalVisible && selectedExercise == None && editName == "" && editDescription == ""
    {
      exercises, page, loading := [], 1, false;
      modalVisible, newName, newDescription := false, "", "";
      editModalVisible, selectedExercise, editName, editDescription := false, None, "", "";
    }

    /** The effect on `[page]`: a load (and the loading flag) starts only while `page > 0`. */
    method StartLoad() returns (req: Option<Request>)
      modifies this`loading
      ensures req == if page > 0 then Some(GetPage(page)) else None
      ensures loading == (old(loading) || page > 0)
    {
      if page > 0 {
        loading := true;
        req := Some(GetPage(page));
      } else {
        req := None;
      }
    }

    /** The rest of `loadExercises`: the response for the current page (or a
        failed request), then `finally` clears the loading flag. A response
        without `next` sets `page` to 0. */
    method FinishLoad(response: Option<PageResponse>)
      modifies this`exercises, this`page, this`loading
      ensures !loading
      ensures response == None ==> exercises == old(exercises) && page == old(page)
      ensures response.Some? ==>
        && exercises == MergePage(old(exercises), old(page), response.value.results)
        && page == if response.value.hasNext then old(page) else 0
    {
      if response.Some? {
        if page == 1 {
          exercises := response.value.results;
        } else {
          exercises := exercises + response.value.results;
        }
        if !response.value.hasNext {
          page := 0;
        }
      }
      loading := false;
    }

    /** `loadMore`, run when the list is scrolled to its end: the next page,
        unless a load is running or the last page has been reached (page 0,
        which stays 0 for good). */
    method LoadMore()
      modifies this`page
      ensures page == if old(page) > 0 && !loading then old(page) + 1 else old(page)
      ensures old(page) == 0 ==> page == 0
    {
      if page > 0 && !loading {
        page := page + 1;
      }
    }

    /** The "Thêm bài tập" button. */
    method OpenAddModal()
      modifies this`modalVisible
      ensures modalVisible
    {
      modalVisible := true;
    }

    /** Typing in the add modal's two inputs. */
    method TypeNew(name: string, description: string)
      modifies this`newName, this`newDescription
      ensures newName == name && newDescription == description
    {
      newName, newDescription := name, description;
    }

    /** `handleAddExercise`. A blank name sends nothing; otherwise the POST is
        sent, and when it succeeds the created exercise is put first, the
        inputs are emptied and the modal closes. A failed POST changes nothing. */
    method AddExercise(response: Option<Exercise>) returns (req: Option<Request>)
      modifies this`exercises, this`newName, this`newDescription, this`modalVisible
      ensures IsBlank(old(newName)) ==> req == None
      ensures !IsBlank(old(newName)) ==> req == Some(PostExercise(old(newName), old(newDescription)))
      ensures req.Some? && response.Some? ==>
        && exercises == [response.value] + old(exercises)
        && newName == "" && newDescription == "" && !modalVisible
      ensures req == None || response == None ==>
        && exercises == old(exercises) && newName == old(newName)
        && newDescription == old(newDescription) && modalVisible == old(modalVisible)
    {
      TrimEmptyIffBlank(newName);
      if Trim(newName) == "" {
        return None;
      }
      req := Some(PostExercise(newName, newDescription));
      if response.Some? {
        exercises := [response.value] + exercises;
        newName := "";
        newDescription := "";
        modalVisible := false;
      }
    }

    /** `handleDeleteExercise`: the DELETE is always sent; when it succeeds
        every listed item with that id goes, the others stay in order. */
    method DeleteExercise(id: int, succeeded: bool) returns (req: Request)
      modifies this`exercises
      ensures req == Request.DeleteExercise(id)
      ensures exercises == if succeeded then WithoutId(old(exercises), id) else old(exercises)
    {
      req := Request.DeleteExercise(id);
      if succeeded {
        exercises := WithoutId(exercises, id);
      }
    }

    /** `openEditModal`: remember the item and copy its fields into the inputs. */
    method OpenEditModal(exercise: Exercise)
      modifies this`selectedExercise, this`editName, this`editDescription, this`editModalVisible
      ensures selectedExercise == Some(exercise)
      ensures editName == exercise.name && editDescription == exercise.description
      ensures editModalVisible
    {
      selectedExercise := Some(exercise);
      editName := exercise.name;
      editDescription := exercise.description;
      editModalVisible := true;
    }

    /** Typing in the edit modal's two inputs. */
    method TypeEdit(name: string, description: string)
      modifies this`editName, this`editDescription
      ensures editName == name && editDescription == description
    {
      editName, editDescription := name, description;
    }

    /** `handleUpdateExercise`. A blank name sends nothing, and so does a
        missing selection (reading `selectedExercise.id` throws inside the
        `try`). Otherwise the PATCH is sent; when it succeeds exactly the
        items with the selected id are replaced by the response and the modal
        closes. A failed PATCH changes nothing. */
    method UpdateExercise(response: Option<Exercise>) returns (req: Option<Request>)
      modifies this`exercises, this`editModalVisible, this`selectedExercise
      ensures IsBlank(old(editName)) || old(selectedExercise) == None ==> req == None
      ensures !IsBlank(old(editName)) && old(selectedExercise).Some? ==>
        req == Some(PatchExercise(old(selectedExercise).value.id, old(editName), old(editDescription)))
      ensures req.Some? && response.Some? ==>
        && exercises == ReplaceById(old(exercises), old(selectedExercise).value.id, response.value)
        && !editModalVisible && selectedExercise == None
      ensures req == None || response == None ==>
        && exercises == old(exercises) && editModalVisible == old(editModalVisible)
        && selectedExercise == old(selectedExercise)
    {
      TrimEmptyIffBlank(editName);
      if Trim(editName) == "" || selectedExercise == None {
        return None;
      }
      var id := selectedExercise.value.id;
      req := Some(PatchExercise(id, editName, editDescription));
      if response.Some? {
        exercises := ReplaceById(exercises, id, response.value);
        editModalVisible := false;
        selectedExercise := None;
      }
    }
  }
}
