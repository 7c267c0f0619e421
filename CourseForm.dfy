/** The course form (components/forms/CourseForm.jsx): how a course is turned into
    form values when editing (features joined into text, categories reduced to ids),
    how the category checkboxes edit the id list, and how a submission is normalised
    (features split, trimmed and filtered) and dispatched to create or update. */
module CourseForm {
  import opened Js
  import opened Browser
  import opened Api

  /** The form's values, and the fields of a course object. */
  type Fields = map<string, Value>

  /** The values of a blank form: `defaultValues` and the `reset` for a new course. */
  const BlankCourse: Fields := map[
    "name" := Str(""), "description" := Str(""), "duration" := Str(""),
    "courseTotalDuration" := Num(1), "features" := Str(""), "price" := Num(0),
    "discountPrice" := Num(0), "earlyBirdTitle" := Str(""), "isActive" := Bool(true),
    "categories" := Arr([])]

  // ---------------------------------------------------------------------------
  // Features: list <-> comma-separated text

  /** `.map(f => f.trim())` */
  function TrimAll(parts: seq<string>): (r: seq<string>)
    ensures |r| == |parts|
    ensures forall i :: 0 <= i < |parts| ==> r[i] == Trim(parts[i])
  {
    if parts == [] then [] else [Trim(parts[0])] + TrimAll(parts[1..])
  }

  /** `.filter(f => f.length > 0)` */
  function DropEmpty(parts: seq<string>): (r: seq<string>)
    ensures forall f :: f in r <==> f in parts && f != ""
    ensures |r| <= |parts|
  {
    if parts == [] then []
    else (if parts[0] == "" then [] else [parts[0]]) + DropEmpty(parts[1..])
  }

  /** A feature the text form can carry unchanged: non-empty, trimmed, comma-free. */
  predicate IsFeature(f: string) {
    f != "" && IsTrimmed(f) && ',' !in f
  }

  /** `data.features.split(',').map(f => f.trim()).filter(f => f.length > 0)`:
      every submitted feature is non-empty, has no surrounding space and no comma. */
  function ParseFeatures(text: string): (features: seq<string>)
    ensures forall f <- features :: IsFeature(f)
  {
    var parts := Split(text, ',');
    var trimmed := TrimAll(parts);
    forall f <- trimmed ensures ',' !in f {
      var i :| 0 <= i < |trimmed| && trimmed[i] == f;
      TrimKeepsCharsOut(parts[i], ',');
    }
    DropEmpty(trimmed)
  }

  /** The list of a separator-led piece followed by more text parses to that piece's
      feature, if any, then the features of the rest. */
  lemma {:induction false} ParsePiece(a: string, b: string)
    requires ',' !in a
    ensures ParseFeatures(a + [','] + b) == DropEmpty([Trim(a)]) + ParseFeatures(b)
  {
    SplitAfterPiece(a, ',', b);
    var rest := Split(b, ',');
    assert TrimAll([a] + rest) == [Trim(a)] + TrimAll(rest) by {
      assert ([a] + rest)[1..] == rest;
    }
    DropEmptyAppend([Trim(a)], TrimAll(rest));
  }

  lemma {:induction false} DropEmptyAppend(xs: seq<string>, ys: seq<string>)
    ensures DropEmpty(xs + ys) == DropEmpty(xs) + DropEmpty(ys)
  {
    if xs != [] {
      var head := if xs[0] == "" then [] else [xs[0]];
      assert (xs + ys)[0] == xs[0] && (xs + ys)[1..] == xs[1..] + ys;
      DropEmptyAppend(xs[1..], ys);
      calc {
        DropEmpty(xs + ys);
        head + DropEmpty(xs[1..] + ys);
        head + (DropEmpty(xs[1..]) + DropEmpty(ys));
        (head + DropEmpty(xs[1..])) + DropEmpty(ys);
        DropEmpty(xs) + DropEmpty(ys);
      }
    } else {
      assert xs + ys == ys;
    }
  }

  /** Parsing `w + join(features, ', ')` for a run of spaces `w` gives back the features. */
  lemma {:induction false} ParseAfterSpace(w: string, features: seq<string>)
    requires AllSpace(w)
    requires forall f <- features :: IsFeature(f)
    ensures ParseFeatures(w + Join(features, ", ")) == features
    decreases |features|
  {
    assert ',' !in w by {
      assert !IsSpace(',');
    }
    if |features| == 0 {
      assert w + Join(features, ", ") == w;
      SplitWithoutSeparator(w, ',');
      TrimAllSpace(w);
    } else if |features| == 1 {
      var f := features[0];
      assert f in features;
      assert w + Join(features, ", ") == w + f;
      assert ',' !in w + f;
      SplitWithoutSeparator(w + f, ',');
      TrimAfterSpace(w, f);
    } else {
      var f := features[0];
      assert f in features;
      var tail := Join(features[1..], ", ");
      assert w + Join(features, ", ") == (w + f) + [','] + (" " + tail);
      assert ',' !in w + f;
      ParsePiece(w + f, " " + tail);
      TrimAfterSpace(w, f);
      assert AllSpace(" ");
      ParseAfterSpace(" ", features[1..]);
      assert [f] + features[1..] == features;
    }
  }

  /** The text form of a features list: `features.join(', ')`, parsed back on submit,
      gives the list unchanged when every feature is non-empty, trimmed and comma-free. */
  lemma FeaturesRoundTrip(features: seq<string>)
    requires forall f <- features :: IsFeature(f)
    ensures ParseFeatures(Join(features, ", ")) == features
  {
    ParseAfterSpace("", features);
    assert "" + Join(features, ", ") == Join(features, ", ");
  }

  /** `Array.isArray(f) ? f.join(', ') : f || ''`: the text shown for a course's features. */
  function PrefillFeatures(features: Value): (text: Value)
    ensures features.Arr? ==> text.Str?
    ensures !features.Arr? && Truthy(features) ==> text == features
    ensures !Truthy(features) ==> text == Str("")
  {
    if features.Arr? then Str(JoinValues(features.items, ", "))
    else Or(features, Str(""))
  }

  /** Editing a course and submitting its features text unchanged sends the course's
      features list back unchanged. */
  lemma PrefillThenSubmitFeatures(features: seq<string>)
    requires forall f <- features :: IsFeature(f)
    ensures PrefillFeatures(Arr(Strings(features))) == Str(Join(features, ", "))
    ensures ParseFeatures(PrefillFeatures(Arr(Strings(features))).s) == features
  {
    JoinValuesOfStrings(features, ", ");
    FeaturesRoundTrip(features);
  }

  // ---------------------------------------------------------------------------
  // Categories: entries -> ids, and the checkbox rule

  /** `cat => typeof cat === 'object' ? cat._id : cat`; `typeof null` is 'object' too,
      so a null entry throws. */
  function CategoryId(cat: Value): (r: Result<Value, Exception>)
    ensures r.Err? <==> cat.Null?
    ensures cat.Obj? ==> r == Ok(Field(cat.fields, "_id"))
    ensures !IsObjectType(cat) ==> r == Ok(cat)
  {
    if IsObjectType(cat) then Get(cat, "_id") else Ok(cat)
  }

  /** `categories.map(CategoryId)`: one id per entry, in order. */
  function CategoryIds(cats: seq<Value>): (r: Result<seq<Value>, Exception>)
    ensures r.Ok? <==> forall i :: 0 <= i < |cats| ==> !cats[i].Null?
    ensures r.Ok? ==> |r.value| == |cats|
    ensures r.Ok? ==> forall i :: 0 <= i < |cats| ==> CategoryId(cats[i]) == Ok(r.value[i])
  {
    if cats == [] then Ok([])
    else
      match CategoryId(cats[0])
      case Err(e) => Err(e)
      case Ok(id) =>
        match CategoryIds(cats[1..])
        case Err(e) => Err(e)
        case Ok(ids) =>
          assert forall i :: 1 <= i < |cats| ==> cats[i] == cats[1..][i - 1];
          Ok([id] + ids)
  }

  /** `Array.isArray(c) ? c.map(CategoryId) : []`: objects become their `_id`, strings
      stay as they are and in place, and a non-array gives no ids. */
  function PrefillCategories(categories: Value): (r: Result<seq<Value>, Exception>)
    ensures !categories.Arr? ==> r == Ok([])
    ensures r.Err? <==> categories.Arr? && exists i :: 0 <= i < |categories.items| && categories.items[i].Null?
    ensures r.Ok? && categories.Arr? ==> |r.value| == |categories.items|
    ensures r.Ok? && categories.Arr? ==> forall i :: 0 <= i < |categories.items| ==>
      (categories.items[i].Str? ==> r.value[i] == categories.items[i]) &&
      (categories.items[i].Obj? ==> r.value[i] == Field(categories.items[i].fields, "_id"))
  {
    if categories.Arr? then CategoryIds(categories.items) else Ok([])
  }

  /** `{ ...course, features: ..., categories: ... }`: the values `reset` receives when
      editing; it throws when a category entry is null. */
  function PrefillValues(course: Fields): (r: Result<Fields, Exception>)
    ensures r.Err? <==> PrefillCategories(Field(course, "categories")).Err?
    ensures r.Ok? ==> r.value.Keys == course.Keys + {"features", "categories"}
    ensures r.Ok? ==> forall k :: k in course && k != "features" && k != "categories" ==> r.value[k] == course[k]
    ensures r.Ok? ==> r.value["features"] == PrefillFeatures(Field(course, "features"))
    ensures r.Ok? ==> r.value["categories"] == Arr(PrefillCategories(Field(course, "categories")).value)
  {
    match PrefillCategories(Field(course, "categories"))
    case Err(e) => Err(e)
    case Ok(ids) => Ok(course["features" := PrefillFeatures(Field(course, "features"))]["categories" := Arr(ids)])
  }

  /** `ids.filter(x => x !== id)`: every occurrence of `id` removed, the rest kept. */
  function Without(ids: seq<Value>, id: Value): (r: seq<Value>)
    ensures forall x :: x in r <==> x in ids && x != id
    ensures |r| <= |ids|
  {
    if ids == [] then []
    else (if ids[0] == id then [] else [ids[0]]) + Without(ids[1..], id)
  }

  /** Removing distributes over concatenation, so the kept ids stay in their order. */
  lemma {:induction false} WithoutAppend(xs: seq<Value>, ys: seq<Value>, id: Value)
    ensures Without(xs + ys, id) == Without(xs, id) + Without(ys, id)
  {
    if xs != [] {
      var head := if xs[0] == id then [] else [xs[0]];
      assert (xs + ys)[0] == xs[0] && (xs + ys)[1..] == xs[1..] + ys;
      WithoutAppend(xs[1..], ys, id);
      calc {
        Without(xs + ys, id);
        head + Without(xs[1..] + ys, id);
        head + (Without(xs[1..], id) + Without(ys, id));
        (head + Without(xs[1..], id)) + Without(ys, id);
        Without(xs, id) + Without(ys, id);
      }
    } else {
      assert xs + ys == ys;
    }
  }

  /** Removing an id that is absent changes nothing. */
  lemma {:induction false} WithoutAbsent(ids: seq<Value>, id: Value)
    requires id !in ids
    ensures Without(ids, id) == ids
  {
    if ids != [] {
      WithoutAbsent(ids[1..], id);
      assert [ids[0]] + ids[1..] == ids;
    }
  }

  /** The checkbox handler: checking appends the id, unchecking removes every
      occurrence of it. Afterwards the box shows exactly the state it was set to. */
  function Toggled(current: seq<Value>, id: Value, checked: bool): (next: seq<Value>)
    ensures (id in next) == checked
    ensures checked ==> |next| == |current| + 1 && next[..|current|] == current && next[|current|] == id
    ensures !checked ==> next == Without(current, id)
    ensures !checked ==> forall x :: x != id ==> (x in next <==> x in current)
  {
    if checked then current + [id] else Without(current, id)
  }

  /** Checking then unchecking a box removes the id entirely, and restores the list
      when the id was not selected before. */
  lemma CheckThenUncheck(current: seq<Value>, id: Value)
    ensures Toggled(Toggled(current, id, true), id, false) == Without(current, id)
    ensures id !in current ==> Toggled(Toggled(current, id, true), id, false) == current
  {
    WithoutAppend(current, [id], id);
    assert Without([id], id) == [];
    if id !in current {
      WithoutAbsent(current, id);
    }
  }

  /** The form holds its selected ids as an array, or as a falsy value that
      `|| []` reads as no ids. */
  predicate HoldsIdList(values: Fields) {
    var c := Field(values, "categories");
    c.Arr? || !Truthy(c)
  }

  /** `watch('categories') || []` */
  function Selected(values: Fields): seq<Value>
    requires HoldsIdList(values)
  {
    var c := Field(values, "categories");
    if c.Arr? then c.items else []
  }

  /** `watch('categories')?.includes(id) || false`: whether the box for `id` shows as
      checked. `?.` guards only null and undefined; an array tests membership, a
      string tests for the substring `String(id)`, and a number, boolean or plain
      object has no `includes` to call and throws. */
  function CheckedState(values: Fields, id: Value): (r: Result<bool, Exception>)
    ensures Field(values, "categories").Arr? ==> r == Ok(id in Field(values, "categories").items)
    ensures Field(values, "categories").Null? || Field(values, "categories").Undefined? ==> r == Ok(false)
    ensures Field(values, "categories").Str? ==> r == Ok(Includes(Field(values, "categories").s, ToJsString(id)))
    ensures r.Err? <==> Field(values, "categories").Num? || Field(values, "categories").Bool? || Field(values, "categories").Obj?
    ensures r.Err? ==> r.error == TypeError
  {
    match Field(values, "categories")
    case Undefined | Null => Ok(false)
    case Arr(ids) => Ok(id in ids)
    case Str(text) => Ok(Includes(text, ToJsString(id)))
    case _ => Err(TypeError)
  }

  /** After a checkbox change the box shows the state it was set to, whatever the
      form held before. */
  lemma ToggleThenShown(values: Fields, id: Value, checked: bool)
    requires HoldsIdList(values)
    ensures CheckedState(values["categories" := Arr(Toggled(Selected(values), id, checked))], id) == Ok(checked)
  {
  }

  // ---------------------------------------------------------------------------
  // Submission and loading

  /** `{ ...data, features, categories }`: the spread keeps every other field of the
      form's data and overrides those two. */
  function Normalised(data: Fields, features: seq<string>, categories: Value): (r: Fields)
    ensures r.Keys == data.Keys + {"features", "categories"}
    ensures forall k :: k in data && k != "features" && k != "categories" ==> r[k] == data[k]
    ensures r["features"] == Arr(Strings(features)) && r["categories"] == categories
  {
    data["features" := Arr(Strings(features))]["categories" := categories]
  }

  /** `{ ...data, features: ..., categories: ... }`: the payload sent to the backend.
      A features value that is not a string has no `split` and throws. */
  function SubmittedPayload(data: Fields): (r: Result<Fields, Exception>)
    ensures r.Ok? <==> Field(data, "features").Str?
    ensures r.Err? ==> r.error == TypeError
    ensures r.Ok? ==> r.value.Keys == data.Keys + {"features", "categories"}
    ensures r.Ok? ==> forall k :: k in data && k != "features" && k != "categories" ==> r.value[k] == data[k]
    ensures r.Ok? ==> r.value["features"] == Arr(Strings(ParseFeatures(data["features"].s)))
    ensures r.Ok? ==> r.value["categories"] == (if Field(data, "categories").Arr? then data["categories"] else Arr([]))
  {
    var features := Field(data, "features");
    if !features.Str? then Err(TypeError)
    else
      var categories := Field(data, "categories");
      Ok(Normalised(data, ParseFeatures(features.s), if categories.Arr? then categories else Arr([])))
  }

  /** Every feature of a submitted payload is non-empty, trimmed and comma-free. */
  lemma SubmittedFeaturesClean(data: Fields)
    requires SubmittedPayload(data).Ok?
    ensures var features := SubmittedPayload(data).value["features"];
      features.Arr? && forall v <- features.items :: v.Str? && IsFeature(v.s)
  {
  }

  /** `Array.isArray(data) ? data : []`: the categories offered as checkboxes. */
  function LoadedCategories(r: Result<Value, Exception>): (cats: seq<Value>)
    ensures r.Ok? && r.value.Arr? ==> cats == r.value.items
    ensures !(r.Ok? && r.value.Arr?) ==> cats == []
  {
    if r.Ok? && r.value.Arr? then r.value.items else []
  }

  /** The callbacks a successful save runs, in order. */
  datatype Callback = OnSuccess | OnClose

  /** One open form: its `course` prop, the form library's values, the loaded
      categories and the `loading` flag of the submit button. */
  class CourseFormState {
    const course: Option<Fields>
    var values: Fields
    var categories: seq<Value>
    var loading: bool

    /** `useForm({ defaultValues: course || blank })`, `useState([])`, `useState(false)` */
    constructor (course: Option<Fields>)
      requires course.Some? ==> HoldsIdList(course.value)
      ensures this.course == course
      ensures values == (if course.Some? then course.value else BlankCourse)
      ensures HoldsIdList(values)
      ensures categories == [] && !loading
    {
      this.course := course;
      values := if course.Some? then course.value else BlankCourse;
      categories := [];
      loading := false;
    }

    /** The `reset` of the effect that runs when the modal opens: the prefilled course
        when editing, the blank form otherwise. A throwing prefill leaves the values. */
    method Open() returns (thrown: Option<Exception>)
      modifies this
      ensures course.None? ==> values == BlankCourse && thrown.None?
      ensures course.Some? ==> (thrown.Some? <==> PrefillValues(course.value).Err?)
      ensures course.Some? && thrown.None? ==> values == PrefillValues(course.value).value
      ensures thrown.Some? ==> values == old(values)
      ensures categories == old(categories) && loading == old(loading)
      ensures old(HoldsIdList(values)) ==> HoldsIdList(values)
    {
      thrown := None;
      if course.Some? {
        var prefilled := PrefillValues(course.value);
        if prefilled.Err? {
          thrown := Some(prefilled.error);
          return;
        }
        values := prefilled.value;
      } else {
        values := BlankCourse;
      }
    }

    /** The `onChange` of the checkbox for category `id`. */
    method ToggleCategory(id: Value, checked: bool)
      requires HoldsIdList(values)
      modifies this
      ensures values == old(values)["categories" := Arr(Toggled(Selected(old(values)), id, checked))]
      ensures HoldsIdList(values) && CheckedState(values, id) == Ok(checked)
      ensures categories == old(categories) && loading == old(loading)
    {
      var current := Selected(values);
      if checked {
        values := values["categories" := Arr(current + [id])];
      } else {
        values := values["categories" := Arr(Without(current, id))];
      }
    }

    /** `fetchCategories()`: the categories listed by the API, or none. */
    method FetchCategories(store: LocalStorage, api: ApiClient, outcome: FetchOutcome) returns (call: FetchCall)
      modifies this
      ensures call.url == api.baseURL + CollectionPath(Categories)
      ensures categories == LoadedCategories(Unwrap(Settle(outcome), EnvelopeKey(Categories)))
      ensures values == old(values) && loading == old(loading)
    {
      var data;
      call, data := api.List(store, Categories, outcome);
      if data.Ok? && data.value.Arr? {
        categories := data.value.items;
      } else {
        categories := [];
      }
    }

    /** `onSubmit(data)`: update the edited course or create a new one with the
        normalised payload; on success call `onSuccess` (when given) then `onClose`;
        on any failure call neither. `loading` ends false either way. */
    method Submit(store: LocalStorage, api: ApiClient, data: Fields, hasOnSuccess: bool, outcome: FetchOutcome)
      returns (call: Option<FetchCall>, events: seq<Callback>)
      modifies this
      ensures !loading && values == old(values) && categories == old(categories)
      ensures call.Some? <==> SubmittedPayload(data).Ok?
      ensures call.Some? && course.Some? ==>
        && call.value.url == api.baseURL + ItemPath(Courses, Field(course.value, "_id"))
        && EffectiveVerb(call.value.config) == PUT
        && call.value.config.body == Some(Obj(SubmittedPayload(data).value))
      ensures call.Some? && course.None? ==>
        && call.value.url == api.baseURL + CollectionPath(Courses)
        && EffectiveVerb(call.value.config) == POST
        && call.value.config.body == Some(Obj(SubmittedPayload(data).value))
      ensures events == if call.Some? && Settle(outcome).Ok?
                        then (if hasOnSuccess then [OnSuccess] else []) + [OnClose]
                        else []
    {
      loading := true;
      events := [];
      var payload := SubmittedPayload(data);
      if payload.Err? {
        call := None;
        loading := false;
        return;
      }
      var sent, saved;
      if course.Some? {
        sent, saved := api.Update(store, Courses, Field(course.value, "_id"), Obj(payload.value), outcome);
      } else {
        sent, saved := api.Create(store, Courses, Obj(payload.value), outcome);
      }
      call := Some(sent);
      if saved.Ok? {
        if hasOnSuccess {
          events := events + [OnSuccess];
        }
        events := events + [OnClose];
      }
      loading := false;
    }
  }
}
