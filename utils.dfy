/**
 * lib/utils.ts: error normalisation, URL query helpers, image sizing and the
 * recursive configuration merge.
 */
module Utils {
  import opened Js

  // ---------------------------------------------------------------------------
  // handleError

  /** The prefix of a rethrown error whose shape was recognised. */
  const KnownPrefix := "Error: "
  /** The prefix of a rethrown error of any other shape. */
  const UnknownPrefix := "Unknown error: "

  /** The text the rethrown message carries after its prefix. */
  function ErrorText(error: Thrown): string {
    match error
    case ErrorObject(message) => message
    case StringValue(s) => s
    case OtherValue(json) => json
  }

  /** `handleError` never returns: what it yields here is the Error it throws. */
  function HandleError(error: Thrown): (rethrown: Thrown)
    ensures rethrown.ErrorObject?
  {
    match error
    case ErrorObject(message) => ErrorObject(KnownPrefix + message)
    case StringValue(s) => ErrorObject(KnownPrefix + s)
    case OtherValue(json) => ErrorObject(UnknownPrefix + json)
  }

  /** The rethrown message is the original text behind a prefix, and the prefix
      tells a recognised shape (an Error or a string) from anything else. */
  lemma HandleErrorMessage(error: Thrown)
    ensures HandleError(error).message
            == (if error.OtherValue? then UnknownPrefix else KnownPrefix) + ErrorText(error)
    ensures KnownPrefix <= HandleError(error).message <==> !error.OtherValue?
    ensures UnknownPrefix <= HandleError(error).message <==> error.OtherValue?
  {
    var m := HandleError(error).message;
    if error.OtherValue? {
      assert m[0] == 'U';
    } else {
      assert m[0] == 'E';
      assert m[..|KnownPrefix|] == KnownPrefix;
    }
  }

  // ---------------------------------------------------------------------------
  // formUrlQuery and removeKeysFromQuery, on the map `qs.parse` yields

  /** A query-string value: what `qs.parse` yields (strings), or what a caller
      puts in (a number, or null). */
  datatype QueryValue = QStr(s: string) | QNum(n: int) | QNull

  type Query = map<string, QueryValue>

  /** A URL made of `window.location.pathname` and the query that `qs.stringify`
      serialises. */
  datatype Url = Url(pathname: string, query: Query)

  /** `qs.stringify(params, { skipNulls: true })` leaves null-valued keys out. */
  function SkipNulls(q: Query): Query {
    map k | k in q && q[k] != QNull :: q[k]
  }

  /** `formUrlQuery`: the parsed query with `key` set to `value`, serialised with
      nulls skipped. */
  function FormUrlQuery(pathname: string, searchParams: Query, key: string, value: QueryValue): (url: Url)
    ensures url.pathname == pathname
    ensures key in url.query <==> value != QNull
    ensures key in url.query ==> url.query[key] == value
    ensures forall k :: k != key ==> (k in url.query <==> k in searchParams && searchParams[k] != QNull)
    ensures forall k :: k != key && k in url.query ==> url.query[k] == searchParams[k]
  {
    Url(pathname, SkipNulls(searchParams[key := value]))
  }

  /** `removeKeysFromQuery`: deletes the given keys, then every key whose value is
      `== null`, from the parsed query. */
  method RemoveKeysFromQuery(pathname: string, searchParams: Query, keysToRemove: seq<string>)
    returns (url: Url)
    ensures url.pathname == pathname
    ensures forall k :: k in url.query <==>
      k in searchParams && k !in keysToRemove && searchParams[k] != QNull
    ensures forall k :: k in url.query ==> url.query[k] == searchParams[k]
  {
    var currentUrl := searchParams;
    var i := 0;
    while i < |keysToRemove|
      invariant 0 <= i <= |keysToRemove|
      invariant forall k :: k in currentUrl <==> k in searchParams && k !in keysToRemove[..i]
      invariant forall k :: k in currentUrl ==> currentUrl[k] == searchParams[k]
    {
      currentUrl := currentUrl - {keysToRemove[i]};
      i := i + 1;
    }
    assert keysToRemove[..i] == keysToRemove;
    ghost var afterRemoval := currentUrl;
    var keys := currentUrl.Keys;
    while keys != {}
      invariant keys <= afterRemoval.Keys
      invariant forall k :: k in currentUrl <==>
        k in afterRemoval && (k in keys || afterRemoval[k] != QNull)
      invariant forall k :: k in currentUrl ==> currentUrl[k] == afterRemoval[k]
      decreases keys
    {
      var key :| key in keys;
      if currentUrl[key] == QNull {
        currentUrl := currentUrl - {key};
      }
      keys := keys - {key};
    }
    url := Url(pathname, currentUrl);
  }

  // ---------------------------------------------------------------------------
  // getImageSize

  /** One entry of the `aspectRatioOptions` table. */
  datatype AspectRatioOption = AspectRatioOption(aspectRatio: string, displayLabel: string, width: int, height: int)

  datatype Dimension = Width | Height

  /** The property name a dimension is read under. */
  function DimensionKey(d: Dimension): string {
    match d
    case Width => "width"
    case Height => "height"
  }

  function OptionSize(option: AspectRatioOption, d: Dimension): int {
    match d
    case Width => option.width
    case Height => option.height
  }

  /** The size used when no usable one is found. */
  const DefaultSize := 1000

  /** `getImageSize`. For 'fill' the size comes from the option named by the
      image's aspect ratio; otherwise from the image itself; a missing or falsy
      size reads as 1000. Reading `image.aspectRatio` of a null or undefined image
      throws. */
  function GetImageSize(options: map<string, AspectRatioOption>, transformationType: string,
                        image: JsValue, d: Dimension): (r: Completion<JsValue>)
    ensures r.Threw? <==> transformationType == "fill" && Nullish(image)
    ensures r.Returned? ==> Truthy(r.value)
    ensures transformationType == "fill" && !Nullish(image) ==>
      r == Returned(
        var ratio := Get(image, "aspectRatio");
        if ratio.Str? && ratio.s in options && OptionSize(options[ratio.s], d) != 0
        then Num(OptionSize(options[ratio.s], d)) else Num(DefaultSize))
    ensures transformationType != "fill" ==>
      r == Returned(if Truthy(Get(image, DimensionKey(d))) then Get(image, DimensionKey(d)) else Num(DefaultSize))
  {
    if transformationType == "fill" then
      if Nullish(image) then Threw(PropertyReadError(image, "aspectRatio"))
      else
        var ratio := Get(image, "aspectRatio");
        var size := if ratio.Str? && ratio.s in options then Num(OptionSize(options[ratio.s], d)) else Undefined;
        Returned(Or(size, Num(DefaultSize)))
    else
      Returned(Or(Get(image, DimensionKey(d)), Num(DefaultSize)))
  }

  // ---------------------------------------------------------------------------
  // deepMergeObjects

  /** `deepMergeObjects(obj1, obj2)`: obj2's own properties, overwritten by obj1's,
      where a property that is an object on both sides is merged recursively.
      On a conflict obj1's value is kept (the doc comment says obj2's). */
  function DeepMerge(obj1: JsValue, obj2: JsValue): (r: JsValue)
    ensures Nullish(obj2) ==> r == obj1
    ensures !Nullish(obj2) ==> r.Obj? && r.props.Keys == Spread(obj2).Keys + Spread(obj1).Keys
    ensures !Nullish(obj2) ==> forall key :: key in Spread(obj2) && key !in Spread(obj1) ==>
      r.props[key] == Spread(obj2)[key]
    ensures !Nullish(obj2) ==> forall key :: key in Spread(obj1) ==>
      r.props[key] == MergeProperty(Spread(obj1)[key], Get(obj2, key))
    decreases obj1, 1
  {
    if Nullish(obj2) then obj1
    else match obj1
      case Obj(props1) =>
        Obj(map key | key in Spread(obj2).Keys + props1.Keys ::
              if key in props1 then MergeProperty(props1[key], Get(obj2, key)) else Spread(obj2)[key])
      case _ => Obj(Spread(obj2))
  }

  /** The value one property of obj1 contributes, given obj2's value under the same key. */
  function MergeProperty(value1: JsValue, value2: JsValue): (r: JsValue)
    ensures !(IsObject(value1) && IsObject(value2)) ==> r == value1
    ensures IsObject(value1) && IsObject(value2) ==>
      && r.Obj? && r.props.Keys == value1.props.Keys + value2.props.Keys
      && (forall key :: key in value2.props && key !in value1.props ==> r.props[key] == value2.props[key])
      && r == DeepMerge(value1, value2)
    decreases value1, 2
  {
    if IsObject(value1) && IsObject(value2) then DeepMerge(value1, value2) else value1
  }

  /** `deepMergeObjects`, as the source computes it: copy obj2, then overwrite key
      by key while walking obj1's own properties. */
  method DeepMergeObjects(obj1: JsValue, obj2: JsValue) returns (output: JsValue)
    ensures output == DeepMerge(obj1, obj2)
    decreases obj1
  {
    if Nullish(obj2) {
      return obj1;
    }
    var out := Spread(obj2);
    if obj1.Obj? {
      var props1 := obj1.props;
      var keys := props1.Keys;
      while keys != {}
        invariant keys <= props1.Keys
        invariant out.Keys == Spread(obj2).Keys + (props1.Keys - keys)
        invariant forall key :: key in out ==>
          out[key] == if key in props1 && key !in keys then MergeProperty(props1[key], Get(obj2, key))
                      else Spread(obj2)[key]
        decreases keys
      {
        var key :| key in keys;
        var value2 := Get(obj2, key);
        if props1[key].Obj? && value2.Obj? {
          var merged := DeepMergeObjects(props1[key], value2);
          out := out[key := merged];
        } else {
          out := out[key := props1[key]];
        }
        keys := keys - {key};
      }
    }
    output := Obj(out);
  }

  /** What obj1 sets is in the result: every non-object property of obj1 appears
      unchanged, every object property is itself covered, at any depth. */
  ghost predicate Covers(obj1: JsValue, r: JsValue)
    decreases obj1
  {
    obj1.Obj? ==>
      r.Obj? && obj1.props.Keys <= r.props.Keys &&
      forall key :: key in obj1.props ==>
        if obj1.props[key].Obj? then Covers(obj1.props[key], r.props[key])
        else r.props[key] == obj1.props[key]
  }

  /** obj1's settings win at every depth: merging cannot lose or change any leaf
      obj1 sets, whatever obj2 holds. */
  lemma {:induction false} DeepMergeCovers(obj1: JsValue, obj2: JsValue)
    ensures Covers(obj1, DeepMerge(obj1, obj2))
    decreases obj1
  {
    if obj1.Obj? {
      var r := DeepMerge(obj1, obj2);
      forall key | key in obj1.props && obj1.props[key].Obj?
        ensures Covers(obj1.props[key], r.props[key])
      {
        var value2 := Get(obj2, key);
        if Nullish(obj2) {
          CoversSelf(obj1.props[key]);
        } else if value2.Obj? {
          DeepMergeCovers(obj1.props[key], value2);
        } else {
          CoversSelf(obj1.props[key]);
        }
      }
    }
  }

  lemma {:induction false} CoversSelf(v: JsValue)
    ensures Covers(v, v)
    decreases v
  {
    if v.Obj? {
      forall key | key in v.props && v.props[key].Obj?
        ensures Covers(v.props[key], v.props[key])
      {
        CoversSelf(v.props[key]);
      }
    }
  }

  /** Merging an object with itself gives it back. */
  lemma {:induction false} DeepMergeSelf(obj: JsValue)
    requires obj.Obj?
    ensures DeepMerge(obj, obj) == obj
    decreases obj
  {
    var r := DeepMerge(obj, obj);
    forall key | key in obj.props
      ensures r.props[key] == obj.props[key]
    {
      if obj.props[key].Obj? {
        DeepMergeSelf(obj.props[key]);
      }
    }
    assert r.props == obj.props;
  }

  /** Applying the same obj1 a second time changes nothing. */
  lemma {:induction false} DeepMergeReapply(obj1: JsValue, obj2: JsValue)
    requires obj1.Obj?
    ensures DeepMerge(obj1, DeepMerge(obj1, obj2)) == DeepMerge(obj1, obj2)
    decreases obj1
  {
    var once := DeepMerge(obj1, obj2);
    if Nullish(obj2) {
      DeepMergeSelf(obj1);
    } else {
      var twice := DeepMerge(obj1, once);
      forall key | key in once.props
        ensures twice.props[key] == once.props[key]
      {
        if key in obj1.props && obj1.props[key].Obj? {
          var value2 := Get(obj2, key);
          if value2.Obj? {
            DeepMergeReapply(obj1.props[key], value2);
          } else {
            DeepMergeSelf(obj1.props[key]);
          }
        }
      }
      assert twice.props == once.props;
    }
  }

  /** The doc comment's promise fails: on a conflict obj2's value is not used,
      not even when obj1's is falsy. */
  lemma DeepMergeKeepsFirst()
    ensures var obj1 := Obj(map["multiple" := Bool(false)]);
            var obj2 := Obj(map["multiple" := Bool(true)]);
            DeepMerge(obj1, obj2).props["multiple"] == Bool(false)
  {
  }
}
