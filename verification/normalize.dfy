/**
 * Normalisation of product records: additive tag filtering, ingredient
 * reshaping, nutrient icons, schema projection with locale-prefix removal,
 * and the choice of one representative image.
 */
module Normalize {
  import opened Wrappers
  import opened Json
  import opened Text
  import opened Seqs
  import opened Mapping

  // ---------------------------------------------------------------- additives

  predicate KeepAdditive(tag: string) {
    !EndsWith(tag, "i")
  }

  /** `filter_additive`: the tags not ending in "i", in their original order. */
  function FilterAdditive(tags: seq<string>): (kept: seq<string>)
    ensures |kept| <= |tags|
    ensures forall j :: 0 <= j < |kept| ==> !EndsWith(kept[j], "i")
  {
    Filter(tags, KeepAdditive)
  }

  /**
   * The kept tags are the input read at exactly the positions of tags not
   * ending in "i", in increasing order.
   */
  lemma FilterAdditiveSelects(tags: seq<string>)
    ensures var idx := Positions(tags, KeepAdditive); var kept := FilterAdditive(tags);
      && StrictlyIncreasing(idx)
      && (forall i :: 0 <= i < |tags| && !EndsWith(tags[i], "i") ==> i in idx)
      && |kept| == |idx|
      && (forall j :: 0 <= j < |kept| ==> idx[j] < |tags| && kept[j] == tags[idx[j]])
  {
    FilterSelects(tags, KeepAdditive);
  }

  /** The texts of `vs` when every one of them is a string. */
  function Strings(vs: seq<Value>): (r: Option<seq<string>>)
    ensures r.Some? <==> forall i :: 0 <= i < |vs| ==> vs[i].Str?
    ensures r.Some? ==> |r.value| == |vs| && forall i :: 0 <= i < |vs| ==> r.value[i] == vs[i].s
  {
    if |vs| == 0 then Some([])
    else if !vs[0].Str? then None
    else
      match Strings(vs[1..])
      case None => None
      case Some(rest) => Some([vs[0].s] + rest)
  }

  /** Iterating a Python string: its characters, each as a one-character string. */
  function Chars(s: string): seq<string> {
    seq(|s|, i requires 0 <= i < |s| => [s[i]])
  }

  /**
   * `filter_additive` applied to the value a record holds: iterating a value
   * that is not iterable raises `TypeError`, and a tag that is not a string
   * has no `endswith`.  A string argument is iterated one character at a time.
   */
  function FilterAdditiveValue(v: Value): (r: Result<seq<string>, PyError>)
    ensures Iterate(v).None? ==> r == Failure(TypeError)
    ensures r.Failure? && Iterate(v).Some? ==> r.error == AttributeError
    ensures v.List? ==> (r.Success? <==> forall i :: 0 <= i < |v.items| ==> v.items[i].Str?)
    ensures v.List? && r.Success? ==> r.value == FilterAdditive(Strings(v.items).value)
    ensures v.Str? || v.Dict? ==> r.Success?
    ensures v.Str? && r.Success? ==> forall j :: 0 <= j < |r.value| ==> |r.value[j]| == 1 && r.value[j] != "i"
    ensures v.Str? ==> r == Success(FilterAdditive(Chars(v.s)))
    ensures v.Dict? ==> r == Success(FilterAdditive(Keys(v.fields)))
  {
    match Iterate(v)
    case None => Failure(TypeError)
    case Some(elements) =>
      assert v.Str? || v.Dict? ==> Strings(elements).Some?;
      assert v.Str? ==> Strings(elements).value == Chars(v.s);
      assert v.Dict? ==> Strings(elements).value == Keys(v.fields);
      match Strings(elements)
      case None => Failure(AttributeError)
      case Some(tags) =>
        FilterAdditiveSelects(tags);
        Success(FilterAdditive(tags))
  }

  lemma FilterAdditiveIdempotent(tags: seq<string>)
    ensures FilterAdditive(FilterAdditive(tags)) == FilterAdditive(tags)
  {
    FilterIdempotent(tags, KeepAdditive);
  }

  // -------------------------------------------------------------- ingredients

  /** `{name, icon, percentage}`; the percentage keeps the raw estimate. */
  datatype Ingredient = Ingredient(name: string, icon: string, percent: Value)

  /** `x != 0` in Python: `False` and every zero number equal 0. */
  predicate NotZero(v: Value) {
    match v
    case Num(n) => n != 0.0
    case Bool(b) => b
    case _ => true
  }

  function TextOf(v: Value): Value
    requires v.Dict?
  {
    GetOr(v.fields, "text", Null)
  }

  function PercentEstimate(v: Value): Value
    requires v.Dict?
  {
    GetOr(v.fields, "percent_estimate", Num(0.0))
  }

  /** The comprehension's condition: text is truthy and the estimate is not 0. */
  predicate KeepIngredient(v: Value) {
    v.Dict? && Truthy(TextOf(v)) && NotZero(PercentEstimate(v))
  }

  /** `float(x)` accepts numbers, booleans and (numeric) strings. */
  predicate FloatConvertible(v: Value) {
    v.Num? || v.Bool? || v.Str?
  }

  /**
   * An element the comprehension gets through without raising: it has a
   * `.get`, and when kept its text has `.title()` and its estimate converts.
   */
  predicate IngredientOk(v: Value) {
    v.Dict? && (KeepIngredient(v) ==> TextOf(v).Str? && FloatConvertible(PercentEstimate(v)))
  }

  /**
   * `entry` is what the comprehension builds from `item`: the title-cased
   * text as name, that name's icon, and the item's estimate.
   */
  ghost predicate Reshaped(entry: Ingredient, item: Value, categories: CategoryMap) {
    && item.Dict?
    && TextOf(item).Str?
    && entry.name == Title(TextOf(item).s)
    && entry.icon == FoodIcon(Title(TextOf(item).s), categories)
    && entry.percent == PercentEstimate(item)
  }

  function ReshapeIngredient(v: Value, categories: CategoryMap): (r: Result<Ingredient, PyError>)
    requires KeepIngredient(v)
    ensures r.Success? <==> IngredientOk(v)
    ensures r.Success? ==> Reshaped(r.value, v, categories)
  {
    match TextOf(v)
    case Str(text) =>
      if FloatConvertible(PercentEstimate(v)) then
        var name := Title(text);
        Success(Ingredient(name, FoodIcon(name, categories), PercentEstimate(v)))
      else Failure(TypeError)
    case _ => Failure(AttributeError)
  }

  /** `filter_ingredient` over the elements of the ingredient list. */
  function FilterIngredientList(items: seq<Value>, categories: CategoryMap): (r: Result<seq<Ingredient>, PyError>)
    ensures r.Success? <==> forall i :: 0 <= i < |items| ==> IngredientOk(items[i])
    ensures r.Success? ==> |r.value| <= |items|
  {
    if |items| == 0 then Success([])
    else
      var init := items[..|items| - 1];
      var last := items[|items| - 1];
      assert forall i :: 0 <= i < |init| ==> init[i] == items[i];
      var prev :- FilterIngredientList(init, categories);
      if !last.Dict? then Failure(AttributeError)
      else if !KeepIngredient(last) then Success(prev)
      else
        var entry :- ReshapeIngredient(last, categories);
        Success(prev + [entry])
  }

  /**
   * Entry `j` of the result comes from the `j`-th kept ingredient, in input
   * order: its name is the title-cased text, its icon the icon of that name,
   * its percent the ingredient's estimate.
   */
  lemma {:induction false} FilterIngredientSelects(items: seq<Value>, categories: CategoryMap)
    requires FilterIngredientList(items, categories).Success?
    ensures var r := FilterIngredientList(items, categories).value;
      var idx := Positions(items, KeepIngredient);
      && |r| == |idx|
      && forall j :: 0 <= j < |idx| ==> idx[j] < |items| && Reshaped(r[j], items[idx[j]], categories)
  {
    if |items| > 0 {
      var n := |items| - 1;
      var init := items[..n];
      assert forall i :: 0 <= i < |init| ==> init[i] == items[i];
      FilterIngredientSelects(init, categories);
      var prev := FilterIngredientList(init, categories).value;
      if KeepIngredient(items[n]) {
        assert Positions(items, KeepIngredient) == Positions(init, KeepIngredient) + [n];
        var entry := ReshapeIngredient(items[n], categories).value;
        assert FilterIngredientList(items, categories).value == prev + [entry];
      } else {
        assert Positions(items, KeepIngredient) == Positions(init, KeepIngredient);
        assert FilterIngredientList(items, categories).value == prev;
      }
    }
  }

  /**
   * `filter_ingredient`: iterating something that is not a list visits a
   * dict's keys or a string's characters, none of which has `.get`.
   */
  function FilterIngredient(data: Value, categories: CategoryMap): (r: Result<seq<Ingredient>, PyError>)
    ensures data.Null? || data.Bool? || data.Num? ==> r == Failure(TypeError)
    ensures (data.Str? || data.Dict?) ==> (r.Success? <==> !Truthy(data))
    ensures r.Success? ==> |r.value| <= |Iterate(data).value|
    ensures data.List? ==> r == FilterIngredientList(data.items, categories)
  {
    match Iterate(data)
    case None => Failure(TypeError)
    case Some(items) =>
      assert Truthy(data) && !data.List? ==> !IngredientOk(items[0]);
      FilterIngredientList(items, categories)
  }

  /** `entry` was reshaped from `item`, whose text is present and non-empty and whose estimate is not 0. */
  ghost predicate FromKept(entry: Ingredient, item: Value, categories: CategoryMap) {
    && Reshaped(entry, item, categories)
    && Truthy(GetOr(item.fields, "text", Null))
    && NotZero(PercentEstimate(item))
  }

  /**
   * No entry comes from an ingredient without text or with a zero estimate,
   * and every ingredient that has both yields an entry.
   */
  lemma FilterIngredientDropsExactly(items: seq<Value>, categories: CategoryMap)
    requires FilterIngredientList(items, categories).Success?
    ensures var r := FilterIngredientList(items, categories).value;
      && (forall j :: 0 <= j < |r| ==> exists i :: 0 <= i < |items| && FromKept(r[j], items[i], categories))
      && (forall i :: 0 <= i < |items| && KeepIngredient(items[i]) ==>
            exists j :: 0 <= j < |r| && Reshaped(r[j], items[i], categories))
  {
    var r := FilterIngredientList(items, categories).value;
    var idx := Positions(items, KeepIngredient);
    FilterIngredientSelects(items, categories);
    forall j | 0 <= j < |r|
      ensures exists i :: 0 <= i < |items| && FromKept(r[j], items[i], categories)
    {
      assert KeepIngredient(items[idx[j]]);
      assert FromKept(r[j], items[idx[j]], categories);
    }
    forall i | 0 <= i < |items| && KeepIngredient(items[i])
      ensures exists j :: 0 <= j < |r| && Reshaped(r[j], items[i], categories)
    {
      var j :| 0 <= j < |idx| && idx[j] == i;
      assert Reshaped(r[j], items[idx[j]], categories);
    }
  }

  // --------------------------------------------------------------- nutriments

  const NutrientLists: seq<string> := ["negative_nutrient", "positive_nutrient"]

  /** The `name` the icon is looked up by; `food_icon` needs a string. */
  function NutrientName(v: Value): Value
    requires v.Dict?
  {
    GetOr(v.fields, "name", Str(""))
  }

  predicate NutrientOk(v: Value) {
    v.Dict? && NutrientName(v).Str?
  }

  /** The nutrient with its `icon` set from its name. */
  function WithIcon(v: Value, categories: CategoryMap): Value
    requires NutrientOk(v)
  {
    Dict(SetField(v.fields, "icon", Str(FoodIcon(NutrientName(v).s, categories))))
  }

  /** `nutrient["icon"] = food_icon(nutrient.get("name", ""), ...)` for each element. */
  function AttachIcons(items: seq<Value>, categories: CategoryMap): (r: Result<seq<Value>, PyError>)
    ensures r.Success? <==> forall i :: 0 <= i < |items| ==> NutrientOk(items[i])
    ensures r.Failure? ==> r.error == AttributeError
    ensures r.Success? ==>
      && |r.value| == |items|
      && forall i :: 0 <= i < |items| ==> r.value[i] == WithIcon(items[i], categories)
  {
    if |items| == 0 then Success([])
    else if !NutrientOk(items[0]) then Failure(AttributeError)
    else
      var rest :- AttachIcons(items[1..], categories);
      Success([WithIcon(items[0], categories)] + rest)
  }

  /** A nutrient list value the loop gets through: a list of named dicts, or an empty string or dict. */
  predicate NutrientListOk(v: Value) {
    match v
    case List(items) => forall i :: 0 <= i < |items| ==> NutrientOk(items[i])
    case Str(s) => s == ""
    case Dict(fs) => fs == []
    case _ => false
  }

  /**
   * The loop over one category's value, updating it in place: only a list
   * has elements that can carry an icon.
   */
  function AttachIconsValue(v: Value, categories: CategoryMap): (r: Result<Value, PyError>)
    ensures r.Success? <==> NutrientListOk(v)
    ensures Iterate(v).None? ==> r == Failure(TypeError)
    ensures (v.Str? || v.Dict?) && Truthy(v) ==> r == Failure(AttributeError)
    ensures v.List? && r.Failure? ==> r.error == AttributeError
    ensures r.Success? && !v.List? ==> r.value == v
    ensures r.Success? && v.List? ==>
      && r.value.List?
      && |r.value.items| == |v.items|
      && forall i :: 0 <= i < |v.items| ==> r.value.items[i] == WithIcon(v.items[i], categories)
  {
    match Iterate(v)
    case None => Failure(TypeError)
    case Some(elements) =>
      assert !v.List? && Truthy(v) ==> !NutrientOk(elements[0]);
      var updated :- AttachIcons(elements, categories);
      Success(if v.List? then List(updated) else v)
  }

  /** The icons of one category's list, the other entries left alone. */
  function UpdateCategory(data: Fields, category: string, categories: CategoryMap): (r: Result<Fields, PyError>)
    ensures r.Success? <==> (HasKey(data, category) ==> NutrientListOk(GetOr(data, category, Null)))
    ensures r.Success? ==> Keys(r.value) == Keys(data)
    ensures r.Success? ==> forall k, d :: k != category ==> GetOr(r.value, k, d) == GetOr(data, k, d)
    ensures r.Success? ==> IconsAttached(GetOr(data, category, Null), GetOr(r.value, category, Null), categories)
  {
    if HasKey(data, category) then
      var v :- AttachIconsValue(GetOr(data, category, Null), categories);
      var r := SetField(data, category, v);
      assert Keys(r) == Keys(data);
      Success(r)
    else Success(data)
  }

  /** `after` is the nutrient list `before` with every entry's icon set. */
  ghost predicate IconsAttached(before: Value, after: Value, categories: CategoryMap) {
    && (!before.List? ==> after == before)
    && (before.List? ==>
         && after.List?
         && |after.items| == |before.items|
         && forall i :: 0 <= i < |before.items| ==>
              NutrientOk(before.items[i]) && after.items[i] == WithIcon(before.items[i], categories))
  }

  /** `filter_nutriment`: the negative list, then the positive list, gets icons. */
  function FilterNutriment(data: Fields, categories: CategoryMap): (r: Result<Fields, PyError>)
    ensures r.Success? <==>
      forall c :: c in NutrientLists && HasKey(data, c) ==> NutrientListOk(GetOr(data, c, Null))
    ensures r.Success? ==> Keys(r.value) == Keys(data)
    ensures r.Success? ==> forall k, d :: k !in NutrientLists ==> GetOr(r.value, k, d) == GetOr(data, k, d)
    ensures r.Success? ==> forall c :: c in NutrientLists ==>
      IconsAttached(GetOr(data, c, Null), GetOr(r.value, c, Null), categories)
  {
    assert forall c :: c in NutrientLists <==> c == "negative_nutrient" || c == "positive_nutrient";
    var d1 :- UpdateCategory(data, "negative_nutrient", categories);
    var r := UpdateCategory(d1, "positive_nutrient", categories);
    assert GetOr(d1, "positive_nutrient", Null) == GetOr(data, "positive_nutrient", Null);
    assert HasKey(d1, "positive_nutrient") <==> HasKey(data, "positive_nutrient");
    assert r.Success? ==> GetOr(r.value, "negative_nutrient", Null) == GetOr(d1, "negative_nutrient", Null);
    r
  }

  /**
   * Within a nutrient entry only `icon` changes: every other field keeps its
   * value, and the icon is that of the entry's name.
   */
  lemma WithIconOnlySetsIcon(v: Value, categories: CategoryMap)
    requires NutrientOk(v)
    ensures WithIcon(v, categories).Dict?
    ensures forall k, d :: k != "icon" ==> GetOr(WithIcon(v, categories).fields, k, d) == GetOr(v.fields, k, d)
    ensures GetOr(WithIcon(v, categories).fields, "icon", Null) == Str(FoodIcon(NutrientName(v).s, categories))
  {
  }

  // ---------------------------------------------------------- schema / prefix

  /** `clean_value`: drop one leading "en:" from strings, element-wise in lists, nothing else. */
  function CleanValue(v: Value): Value
  {
    match v
    case Str(s) => Str(RemovePrefix(s, "en:"))
    case List(xs) => List(seq(|xs|, i requires 0 <= i < |xs| => CleanValue(xs[i])))
    case _ => v
  }

  /** Cleaning undoes one "en:" and keeps everything else as it is. */
  lemma CleanValueShape(v: Value)
    ensures v.Str? ==> CleanValue(Str("en:" + v.s)) == v
    ensures v.Str? && !StartsWith(v.s, "en:") ==> CleanValue(v) == v
    ensures v.List? ==> CleanValue(v).List? && |CleanValue(v).items| == |v.items|
    ensures v.List? ==> forall i :: 0 <= i < |v.items| ==> CleanValue(v).items[i] == CleanValue(v.items[i])
    ensures v.Dict? || v.Num? || v.Bool? || v.Null? ==> CleanValue(v) == v
  {
    if v.Str? {
      RemovePrefixOfPrepend("en:", v.s);
    }
  }

  /** Strings, at any list depth, that a second cleaning would still change. */
  predicate TwiceCleanable(v: Value) {
    match v
    case Str(s) => StartsWith(s, "en:en:")
    case List(xs) => exists i :: 0 <= i < |xs| && TwiceCleanable(xs[i])
    case _ => false
  }

  /** A string cleans to a fixed point in one step unless it starts with "en:" twice. */
  lemma CleanStrIdempotentIff(s: string)
    ensures RemovePrefix(RemovePrefix(s, "en:"), "en:") == RemovePrefix(s, "en:") <==> !StartsWith(s, "en:en:")
  {
    var t := RemovePrefix(s, "en:");
    if StartsWith(s, "en:") {
      assert t == s[3..];
      if |s| >= 6 {
        assert s[..6] == s[..3] + t[..3];
      }
      assert StartsWith(t, "en:") <==> StartsWith(s, "en:en:");
      assert RemovePrefix(t, "en:") == t <==> !StartsWith(t, "en:") by {
        if StartsWith(t, "en:") { assert |RemovePrefix(t, "en:")| == |t| - 3; }
      }
    } else {
      assert !StartsWith(s, "en:en:") by {
        if |s| >= 6 { assert s[..3] == s[..6][..3]; }
      }
    }
  }

  /**
   * Cleaning is idempotent on a value exactly when no string in it starts
   * with "en:" twice: "en:en:x" cleans to "en:x", then to "x".
   */
  lemma {:induction false} CleanValueIdempotentIff(v: Value)
    ensures CleanValue(CleanValue(v)) == CleanValue(v) <==> !TwiceCleanable(v)
  {
    match v
    case Str(s) =>
      CleanStrIdempotentIff(s);
    case List(xs) =>
      var c := CleanValue(v).items;
      forall i | 0 <= i < |xs|
        ensures CleanValue(c[i]) == c[i] <==> !TwiceCleanable(xs[i])
      {
        CleanValueIdempotentIff(xs[i]);
      }
      if TwiceCleanable(v) {
        var i :| 0 <= i < |xs| && TwiceCleanable(xs[i]);
        assert CleanValue(CleanValue(v)).items[i] != c[i];
      } else {
        assert CleanValue(CleanValue(v)).items == c;
      }
    case _ =>
  }

  lemma CleanValueNotIdempotent()
    ensures CleanValue(Str("en:en:x")) == Str("en:x")
    ensures CleanValue(CleanValue(Str("en:en:x"))) == Str("x")
  {
    assert StartsWith("en:en:x", "en:");
    assert StartsWith("en:x", "en:");
  }

  /** Position of the first occurrence of `k` in `s`. */
  function FirstIndex(s: seq<string>, k: string): (i: nat)
    requires k in s
    ensures i < |s| && s[i] == k && k !in s[..i]
  {
    if s[0] == k then 0 else 1 + FirstIndex(s[1..], k)
  }

  lemma FirstIndexPrefix(s: seq<string>, n: nat, k: string)
    requires n <= |s| && k in s[..n]
    ensures FirstIndex(s, k) == FirstIndex(s[..n], k)
  {
    var i := FirstIndex(s[..n], k);
    var j := FirstIndex(s, k);
    assert forall m :: 0 <= m < j ==> s[m] != k by {
      forall m | 0 <= m < j ensures s[m] != k {
        assert s[..j][m] == s[m];
      }
    }
    assert forall m :: 0 <= m < i ==> s[m] != k by {
      forall m | 0 <= m < i ensures s[m] != k {
        assert s[..n][..i][m] == s[m];
      }
    }
    assert s[i] == k;
  }

  /**
   * The keys `filter_data` emits: the schema keys present in the record,
   * each once, in the order of their first appearance in the schema.
   */
  function SchemaKeys(schema: seq<string>, record: Fields): (ks: seq<string>)
    ensures forall k :: k in ks <==> k in schema && HasKey(record, k)
    ensures forall i, j :: 0 <= i < j < |ks| ==> FirstIndex(schema, ks[i]) < FirstIndex(schema, ks[j])
    ensures |ks| <= |schema|
  {
    if |schema| == 0 then []
    else
      var n := |schema| - 1;
      var init := schema[..n];
      var k := schema[n];
      var prev := SchemaKeys(init, record);
      assert forall k' :: k' in schema <==> k' in init || k' == k;
      assert forall i :: 0 <= i < |prev| ==> FirstIndex(schema, prev[i]) == FirstIndex(init, prev[i]) by {
        forall i | 0 <= i < |prev| ensures FirstIndex(schema, prev[i]) == FirstIndex(init, prev[i]) {
          FirstIndexPrefix(schema, n, prev[i]);
        }
      }
      if k in init || !HasKey(record, k) then prev
      else
        assert FirstIndex(schema, k) == n by {
          assert forall m :: 0 <= m < n ==> schema[m] == init[m];
        }
        prev + [k]
  }

  /**
   * `filter_data`: every schema key present in the record, with its value
   * cleaned, in schema order; absent keys are not filled in.
   */
  function FilterData(schema: seq<string>, record: Fields): (r: Fields)
    ensures forall k :: HasKey(r, k) <==> k in schema && HasKey(record, k)
    ensures forall k :: HasKey(r, k) ==> GetOr(r, k, Null) == CleanValue(GetOr(record, k, Null))
    ensures forall i, j :: 0 <= i < j < |r| ==> r[i].0 != r[j].0
    ensures Keys(r) == SchemaKeys(schema, record)
  {
    var ks := SchemaKeys(schema, record);
    var r := seq(|ks|, i requires 0 <= i < |ks| => (ks[i], CleanValue(GetOr(record, ks[i], Null))));
    assert Keys(r) == ks;
    assert forall i, j :: 0 <= i < j < |ks| ==> ks[i] != ks[j] by {
      forall i, j | 0 <= i < j < |ks| ensures ks[i] != ks[j] {
        assert FirstIndex(schema, ks[i]) < FirstIndex(schema, ks[j]);
      }
    }
    assert forall k :: HasKey(r, k) <==> k in ks by {
      forall k ensures HasKey(r, k) <==> k in ks {
        if k in ks {
          var i :| 0 <= i < |ks| && ks[i] == k;
          assert r[i].0 == k;
        }
      }
    }
    r
  }

  // ------------------------------------------------------------------- images

  const ImageTypes: seq<string> := ["front", "ingredients", "nutrition"]

  /** The image entry's "display" value when that key is there, else the entry. */
  function DisplayOr(img: Fields): Value {
    if HasKey(img, "display") then GetOr(img, "display", Null) else Dict(img)
  }

  /** `k in d and isinstance(d[k], dict)` */
  predicate DictAt(fs: Fields, k: string) {
    GetOr(fs, k, Null).Dict?
  }

  /** The fallback loop: the first image type holding a dict. */
  function ProbeImages(fs: Fields, types: seq<string>): (r: Value)
    ensures (forall i :: 0 <= i < |types| ==> !DictAt(fs, types[i])) ==> r == Dict([])
    ensures forall i ::
      (&& 0 <= i < |types|
       && DictAt(fs, types[i])
       && (forall j :: 0 <= j < i ==> !DictAt(fs, types[j])))
      ==> r == DisplayOr(GetOr(fs, types[i], Null).fields)
  {
    if |types| == 0 then Dict([])
    else if DictAt(fs, types[0]) then DisplayOr(GetOr(fs, types[0], Null).fields)
    else
      var r := ProbeImages(fs, types[1..]);
      assert forall i :: 1 <= i < |types| ==> types[1..][i - 1] == types[i];
      r
  }

  /** `filter_image` */
  function FilterImage(image: Value): (r: Value)
    ensures !Truthy(image) || !image.Dict? ==> r == Dict([])
    ensures image.Dict? && DictAt(image.fields, "front") ==>
      var front := GetOr(image.fields, "front", Null).fields;
      r == (if DictAt(front, "display") then GetOr(front, "display", Null) else Dict(front))
    ensures image.Dict? && DictAt(image.fields, "front") ==> r.Dict?
  {
    if !Truthy(image) || !image.Dict? then Dict([])
    else
      var fs := image.fields;
      if DictAt(fs, "front") then
        var front := GetOr(fs, "front", Null).fields;
        if DictAt(front, "display") then GetOr(front, "display", Null) else Dict(front)
      else ProbeImages(fs, ImageTypes)
  }

  /**
   * Without a front dict, the first of "ingredients" and "nutrition" holding a
   * dict supplies the image: its "display" value (of any kind) if present, else
   * itself; with neither the result is the empty dict.
   */
  lemma FilterImageFallback(image: Value)
    requires image.Dict? && !DictAt(image.fields, "front")
    ensures var fs := image.fields; var r := FilterImage(image);
      && (DictAt(fs, "ingredients") ==> r == DisplayOr(GetOr(fs, "ingredients", Null).fields))
      && (!DictAt(fs, "ingredients") && DictAt(fs, "nutrition") ==>
            r == DisplayOr(GetOr(fs, "nutrition", Null).fields))
      && (!DictAt(fs, "ingredients") && !DictAt(fs, "nutrition") ==> r == Dict([]))
  {
    var fs := image.fields;
    assert ImageTypes[0] == "front" && ImageTypes[1] == "ingredients" && ImageTypes[2] == "nutrition";
    if !Truthy(image) {
      assert fs == [];
    }
  }
}
