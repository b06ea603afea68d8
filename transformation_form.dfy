/**
 * components/shared/transformation-form.tsx: the form that edits one image
 * transformation. Its state (the image, the pending and the applied
 * transformation settings, two busy flags and the form fields) changes handler
 * by handler; the requests it makes to the server actions and the router are
 * recorded as effects.
 */
module TransformationForm {
  import opened Js
  import Utils

  datatype FormAction = Add | Update

  /** The fields the form schema holds. */
  datatype FormValues = FormValues(title: JsValue, aspectRatio: JsValue, color: JsValue, prompt: JsValue,
                                   publicId: JsValue)

  /** The two text inputs that feed the pending transformation. */
  datatype TextField = PromptField | ColorField

  datatype Route = Root | ImagePage(id: JsValue)

  /** The image document sent to `addImage` / `updateImage`. `urlOptions` is the
      argument handed to `getCldImageUrl`, whose result is `transformationUrl`. */
  datatype ImageData = ImageData(title: JsValue, publicId: JsValue, transformationType: string,
                                 width: JsValue, height: JsValue, config: JsValue, secureUrl: JsValue,
                                 urlOptions: JsValue, aspectRatio: JsValue, prompt: JsValue, color: JsValue)

  /** A request the form makes. */
  datatype Effect =
    | UpdateCredits(userId: string, delta: int)
    | AddImage(image: ImageData, userId: string, path: Route)
    | UpdateImage(image: ImageData, imageId: JsValue, userId: string, path: Route)
    | Navigate(route: Route)

  /** `initialValues`: the stored image's fields when editing an existing image,
      the type's defaults otherwise. */
  function InitialValues(data: JsValue, action: FormAction, defaults: FormValues): FormValues {
    if Truthy(data) && action == Update then
      FormValues(Get(data, "title"), Get(data, "aspectRatio"), Get(data, "color"), Get(data, "prompt"),
                 Get(data, "publicId"))
    else defaults
  }

  /** The image after an aspect ratio is chosen: `{ ...prev, aspectRatio, width, height }`. */
  function SelectedImage(prev: JsValue, option: Utils.AspectRatioOption): (img: JsValue)
    ensures img.Obj? && img.props.Keys == Spread(prev).Keys + {"aspectRatio", "width", "height"}
    ensures Get(img, "aspectRatio") == Str(option.aspectRatio)
    ensures Get(img, "width") == Num(option.width) && Get(img, "height") == Num(option.height)
    ensures forall k :: k in Spread(prev) && k !in {"aspectRatio", "width", "height"} ==>
      img.props[k] == Spread(prev)[k]
  {
    Obj(Spread(prev)["aspectRatio" := Str(option.aspectRatio)]["width" := Num(option.width)]
                    ["height" := Num(option.height)])
  }

  /** After a key that names its own ratio is chosen, `getImageSize` sizes the
      image by that option, for 'fill' and for every other type (a zero size
      reads as the default). */
  lemma SelectedImageSize(options: map<string, Utils.AspectRatioOption>, key: string, prev: JsValue,
                          transformationType: string, d: Utils.Dimension)
    requires key in options && options[key].aspectRatio == key
    ensures var size := Utils.OptionSize(options[key], d);
            Utils.GetImageSize(options, transformationType, SelectedImage(prev, options[key]), d)
            == Returned(if size != 0 then Num(size) else Num(Utils.DefaultSize))
  {
    var img := SelectedImage(prev, options[key]);
    assert Get(img, Utils.DimensionKey(d)) == Num(Utils.OptionSize(options[key], d));
  }

  /** The property an input writes under the type's entry. */
  function Slot(field: TextField): string {
    match field
    case PromptField => "prompt"
    case ColorField => "to"
  }

  /** The pending transformation after an input change:
      `{ ...prev, [type]: { ...prev?.[type], [slot]: value } }`. */
  function WithInput(prev: JsValue, typeKey: string, field: TextField, value: string): (next: JsValue)
    ensures next.Obj? && next.props.Keys == Spread(prev).Keys + {typeKey}
    ensures forall k :: k in Spread(prev) && k != typeKey ==> next.props[k] == Spread(prev)[k]
    ensures var entry := next.props[typeKey];
            && entry.Obj? && entry.props.Keys == Spread(Get(prev, typeKey)).Keys + {Slot(field)}
            && entry.props[Slot(field)] == Str(value)
            && forall k :: k in Spread(Get(prev, typeKey)) && k != Slot(field) ==>
                 entry.props[k] == Spread(Get(prev, typeKey))[k]
  {
    Obj(Spread(prev)[typeKey := Obj(Spread(Get(prev, typeKey))[Slot(field) := Str(value)])])
  }

  /** Typing again into the same input replaces what the previous keystroke wrote. */
  lemma WithInputLastWins(prev: JsValue, typeKey: string, field: TextField, first: string, second: string)
    ensures WithInput(WithInput(prev, typeKey, field, first), typeKey, field, second)
            == WithInput(prev, typeKey, field, second)
  {
    var once := WithInput(prev, typeKey, field, first);
    var inner := Spread(Get(prev, typeKey))[Slot(field) := Str(first)];
    assert Spread(Get(once, typeKey)) == inner;
    assert inner[Slot(field) := Str(second)] == Spread(Get(prev, typeKey))[Slot(field) := Str(second)];
    assert Spread(once)[typeKey := Obj(inner[Slot(field) := Str(second)])]
           == Spread(prev)[typeKey := Obj(Spread(Get(prev, typeKey))[Slot(field) := Str(second)])];
  }

  /** The prompt and the colour inputs write different slots: their order does not matter. */
  lemma WithInputsCommute(prev: JsValue, typeKey: string, prompt: string, color: string)
    ensures WithInput(WithInput(prev, typeKey, PromptField, prompt), typeKey, ColorField, color)
            == WithInput(WithInput(prev, typeKey, ColorField, color), typeKey, PromptField, prompt)
  {
    var inner := Spread(Get(prev, typeKey));
    var promptFirst := WithInput(prev, typeKey, PromptField, prompt);
    var colorFirst := WithInput(prev, typeKey, ColorField, color);
    assert Spread(Get(promptFirst, typeKey)) == inner["prompt" := Str(prompt)];
    assert Spread(Get(colorFirst, typeKey)) == inner["to" := Str(color)];
    assert inner["prompt" := Str(prompt)]["to" := Str(color)] == inner["to" := Str(color)]["prompt" := Str(prompt)];
  }

  /** The public id the saved image's URL is built from: the image's own, if set,
      else the stored document's. */
  function SourcePublicId(data: JsValue, image: JsValue): JsValue {
    if Truthy(Get(image, "publicId")) then Get(image, "publicId") else Get(data, "publicId")
  }

  /** `{ width, height, src, ...transformationConfig }`: the applied settings
      override the three base keys. */
  function UrlOptions(image: JsValue, src: JsValue, config: JsValue): (options: JsValue)
    ensures options.Obj? && options.props.Keys == {"width", "height", "src"} + Spread(config).Keys
    ensures forall k :: k in Spread(config) ==> options.props[k] == Spread(config)[k]
    ensures "src" !in Spread(config) ==> options.props["src"] == src
    ensures "width" !in Spread(config) ==> options.props["width"] == Get(image, "width")
    ensures "height" !in Spread(config) ==> options.props["height"] == Get(image, "height")
  {
    Obj(map["width" := Get(image, "width"), "height" := Get(image, "height"), "src" := src] + Spread(config))
  }

  function ImageDataOf(data: JsValue, image: JsValue, values: FormValues, typeKey: string, config: JsValue): ImageData {
    ImageData(values.title, Get(image, "publicId"), typeKey, Get(image, "width"), Get(image, "height"), config,
              Get(image, "secureUrl"), UrlOptions(image, SourcePublicId(data, image), config),
              values.aspectRatio, values.prompt, values.color)
  }

  /** The save request `onSubmit` makes, if any. An update of an image the form
      was not given fails on reading `data._id`; the exception is caught and
      nothing is sent. */
  function SaveRequest(action: FormAction, data: JsValue, image: JsValue, values: FormValues,
                       typeKey: string, config: JsValue, userId: string): (req: Option<Effect>)
    ensures req.None? <==> !(Truthy(data) || Truthy(image)) || (action == Update && Nullish(data))
    ensures req.Some? && action == Add ==> req.value.AddImage? && req.value.path == Root
    ensures req.Some? && action == Update ==>
      req.value.UpdateImage? && req.value.imageId == Get(data, "_id") && req.value.path == ImagePage(Get(data, "_id"))
    ensures req.Some? ==> req.value.userId == userId
    ensures req.Some? ==>
      var d := req.value.image;
      && d.title == values.title && d.aspectRatio == values.aspectRatio && d.prompt == values.prompt
      && d.color == values.color && d.config == config && d.transformationType == typeKey
      && d.publicId == Get(image, "publicId")
      && d.width == Get(image, "width") && d.height == Get(image, "height")
      && d.secureUrl == Get(image, "secureUrl")
      && d.urlOptions == UrlOptions(image, SourcePublicId(data, image), config)
      && ("src" !in Spread(config) ==>
            Get(d.urlOptions, "src") == (if Truthy(Get(image, "publicId")) then Get(image, "publicId")
                                         else Get(data, "publicId")))
  {
    if !(Truthy(data) || Truthy(image)) then None
    else
      var imageData := ImageDataOf(data, image, values, typeKey, config);
      match action
      case Add => Some(AddImage(imageData, userId, Root))
      case Update =>
        if Nullish(data) then None
        else Some(UpdateImage(imageData, Get(data, "_id"), userId, ImagePage(Get(data, "_id"))))
  }

  /** Saving an edit of a stored image before any field or the image changes
      sends the stored document back under its own `_id`: the form starts from
      the stored fields, and the URL is built from the stored public id. */
  lemma UntouchedUpdateSavesStored(data: JsValue, defaults: FormValues, typeKey: string, config: JsValue,
                                   userId: string)
    requires Truthy(data)
    ensures var req := SaveRequest(Update, data, data, InitialValues(data, Update, defaults), typeKey, config, userId);
            && req.Some? && req.value.UpdateImage? && req.value.imageId == Get(data, "_id")
            && var d := req.value.image;
            && d.title == Get(data, "title") && d.aspectRatio == Get(data, "aspectRatio")
            && d.prompt == Get(data, "prompt") && d.color == Get(data, "color")
            && d.publicId == Get(data, "publicId")
            && ("src" !in Spread(config) ==> Get(d.urlOptions, "src") == Get(data, "publicId"))
  {
  }

  /** A new image is saved with the type's defaults in every field the user did
      not edit, whatever document the form was given. */
  lemma UntouchedAddSavesDefaults(data: JsValue, image: JsValue, defaults: FormValues, typeKey: string,
                                  config: JsValue, userId: string)
    requires Truthy(data) || Truthy(image)
    ensures InitialValues(data, Add, defaults) == defaults
    ensures var req := SaveRequest(Add, data, image, InitialValues(data, Add, defaults), typeKey, config, userId);
            && req.Some? && req.value.AddImage? && req.value.path == Root
            && var d := req.value.image;
            && d.title == defaults.title && d.aspectRatio == defaults.aspectRatio
            && d.prompt == defaults.prompt && d.color == defaults.color
  {
  }

  /** The server answered the save with a truthy image. */
  predicate Confirmed(saved: Completion<JsValue>) {
    saved.Returned? && Truthy(saved.value)
  }

  /** A request made on behalf of `userId`, charging `creditFee` when it charges. */
  predicate OnBehalfOf(e: Effect, userId: string, creditFee: int) {
    match e
    case UpdateCredits(u, delta) => u == userId && delta == creditFee
    case AddImage(_, u, path) => u == userId && path == Root
    case UpdateImage(_, id, u, path) => u == userId && path == ImagePage(id)
    case Navigate(_) => true
  }

  /** Every logged request is made on behalf of `userId`. */
  predicate AllOnBehalfOf(effects: seq<Effect>, userId: string, creditFee: int) {
    forall i :: 0 <= i < |effects| ==> OnBehalfOf(effects[i], userId, creditFee)
  }

  /** The credit change the logged requests ask for, summed. */
  function Charged(effects: seq<Effect>): int {
    if effects == [] then 0
    else
      var last := effects[|effects| - 1];
      Charged(effects[..|effects| - 1]) + (if last.UpdateCredits? then last.delta else 0)
  }

  /** How many credit changes were requested, one per applied transformation. */
  function Applications(effects: seq<Effect>): nat {
    if effects == [] then 0
    else Applications(effects[..|effects| - 1]) + (if effects[|effects| - 1].UpdateCredits? then 1 else 0)
  }

  /** A form that only ever charges `creditFee` has charged `creditFee` once per
      applied transformation, and nothing for its saves or navigation. */
  lemma {:induction false} ChargedPerApplication(effects: seq<Effect>, userId: string, creditFee: int)
    requires AllOnBehalfOf(effects, userId, creditFee)
    ensures Charged(effects) == creditFee * Applications(effects)
  {
    if effects != [] {
      var prefix := effects[..|effects| - 1];
      assert AllOnBehalfOf(prefix, userId, creditFee) by {
        forall i | 0 <= i < |prefix| ensures OnBehalfOf(prefix[i], userId, creditFee) {
          assert prefix[i] == effects[i];
        }
      }
      ChargedPerApplication(prefix, userId, creditFee);
      assert OnBehalfOf(effects[|effects| - 1], userId, creditFee);
      if effects[|effects| - 1].UpdateCredits? {
        calc {
          Charged(effects);
          creditFee * Applications(prefix) + creditFee;
          creditFee * (Applications(prefix) + 1);
        }
      }
    }
  }

  /** The types whose settings need no input: they are pending as soon as an image is present. */
  predicate AutoConfigured(typeKey: string) {
    typeKey == "restore" || typeKey == "removeBackground"
  }

  class Form {
    const action: FormAction
    /** The stored image being edited (`null` when adding). */
    const data: JsValue
    const userId: string
    const transformationType: string
    const creditBalance: int
    /** `aspectRatioOptions`, `creditFee`, `transformationTypes[type].config`. */
    const options: map<string, Utils.AspectRatioOption>
    const creditFee: int
    const typeConfig: JsValue
    /** The form's defaults, reused by `form.reset()`. */
    const initialValues: FormValues

    var image: JsValue
    var newTransformation: JsValue
    var isSubmitting: bool
    var isTransforming: bool
    var transformationConfig: JsValue
    var values: FormValues
    var effects: seq<Effect>

    /** Every request the form has made is made for its own user and charges
        the fee when it charges. */
    ghost predicate Valid()
      reads this
    {
      AllOnBehalfOf(effects, userId, creditFee)
    }

    /** However the handlers ran, the form has charged `creditFee` once per
        applied transformation. */
    lemma ChargesFeePerApplication()
      requires Valid()
      ensures Charged(effects) == creditFee * Applications(effects)
    {
      ChargedPerApplication(effects, userId, creditFee);
    }

    /** The apply button's `disabled`. */
    predicate ApplyDisabled()
      reads this
    {
      isTransforming || newTransformation == Null
    }

    /** Whether the insufficient-credits modal is rendered. */
    predicate ShowsInsufficientCredits()
      reads this
      ensures creditFee <= 0 ==> (ShowsInsufficientCredits() <==> creditBalance + creditFee < 0)
      ensures creditFee > 0 ==> (ShowsInsufficientCredits() <==> creditBalance < creditFee)
    {
      creditBalance < (if creditFee < 0 then -creditFee else creditFee)
    }

    /** The save button's `disabled`. */
    predicate SubmitDisabled()
      reads this
    {
      isSubmitting
    }

    /** Mounting the component; `data` and `config` default to null when undefined.
        `defaults` is `defaultValues`. The image effect runs after the mount, so
        a stored image of a type with no inputs has its settings pending. */
    constructor (action: FormAction, data: JsValue, userId: string, transformationType: string,
                 creditBalance: int, config: JsValue, options: map<string, Utils.AspectRatioOption>,
                 creditFee: int, defaults: FormValues, typeConfig: JsValue)
      ensures Valid()
      ensures this.action == action && this.userId == userId && this.transformationType == transformationType
      ensures this.creditBalance == creditBalance && this.options == options && this.creditFee == creditFee
      ensures this.typeConfig == typeConfig
      ensures this.data == (if data.Undefined? then Null else data)
      ensures initialValues == InitialValues(this.data, action, defaults) && values == initialValues
      ensures image == this.data
      ensures newTransformation == (if Truthy(this.data) && AutoConfigured(transformationType) then typeConfig else Null)
      ensures transformationConfig == (if config.Undefined? then Null else config)
      ensures !isSubmitting && !isTransforming && effects == []
    {
      var stored := if data.Undefined? then Null else data;
      this.action := action;
      this.data := stored;
      this.userId := userId;
      this.transformationType := transformationType;
      this.creditBalance := creditBalance;
      this.options := options;
      this.creditFee := creditFee;
      this.typeConfig := typeConfig;
      this.initialValues := InitialValues(stored, action, defaults);
      image := stored;
      // the image effect runs once after mounting
      newTransformation := if Truthy(stored) && AutoConfigured(transformationType) then typeConfig else Null;
      isSubmitting := false;
      isTransforming := false;
      transformationConfig := if config.Undefined? then Null else config;
      values := InitialValues(stored, action, defaults);
      effects := [];
    }

    /** `onSelectFieldHandler`: queue the resize of the image to the chosen
        option, make the type's settings pending, and store the key in the form.
        The resize reads `aspectRatio` of the option only when the queued update
        is applied, so a key outside the table still sets the settings and the
        field, and the image update then fails on reading `aspectRatio` of
        undefined, leaving the image as it was. That error is raised while the
        form renders, so it ends the form: the state left behind is only what
        was set before it. The select offers only keys of the table. */
    method SelectAspectRatio(key: string) returns (thrown: Option<Thrown>)
      requires Valid()
      modifies this
      ensures Valid()
      ensures newTransformation == typeConfig && values == old(values).(aspectRatio := Str(key))
      ensures key in options ==> thrown.None? && image == SelectedImage(old(image), options[key])
      ensures key !in options ==> thrown == Some(PropertyReadError(Undefined, "aspectRatio")) && image == old(image)
      ensures effects == old(effects) && transformationConfig == old(transformationConfig)
      ensures isSubmitting == old(isSubmitting) && isTransforming == old(isTransforming)
    {
      newTransformation := typeConfig;
      values := values.(aspectRatio := Str(key));
      if key in options {
        image := SelectedImage(image, options[key]);
        thrown := None;
      } else {
        thrown := Some(PropertyReadError(Undefined, "aspectRatio"));
      }
    }

    /** `onInputChangeHandler`, with the debounced update taken as done: the
        typed text goes into the pending settings under the form's type and into
        the form field. */
    method InputChange(field: TextField, value: string)
      requires Valid()
      modifies this
      ensures Valid()
      ensures newTransformation == WithInput(old(newTransformation), transformationType, field, value)
      ensures values == (match field
                         case PromptField => old(values).(prompt := Str(value))
                         case ColorField => old(values).(color := Str(value)))
      ensures image == old(image) && effects == old(effects) && transformationConfig == old(transformationConfig)
      ensures isSubmitting == old(isSubmitting) && isTransforming == old(isTransforming)
    {
      newTransformation := WithInput(newTransformation, transformationType, field, value);
      match field
      case PromptField => values := values.(prompt := Str(value));
      case ColorField => values := values.(color := Str(value));
    }

    /** Editing the title field. */
    method EditTitle(title: string)
      requires Valid()
      modifies this
      ensures Valid()
      ensures values == old(values).(title := Str(title))
      ensures image == old(image) && newTransformation == old(newTransformation) && effects == old(effects)
      ensures transformationConfig == old(transformationConfig)
      ensures isSubmitting == old(isSubmitting) && isTransforming == old(isTransforming)
    {
      values := values.(title := Str(title));
    }

    /** `onTransformHandler`: merge the pending settings over the applied ones,
        clear them, mark the form busy and charge the fee. */
    method ApplyTransformation()
      requires Valid()
      modifies this
      ensures Valid()
      ensures isTransforming && newTransformation == Null && ApplyDisabled()
      ensures transformationConfig == Utils.DeepMerge(old(newTransformation), old(transformationConfig))
      ensures Utils.Covers(old(newTransformation), transformationConfig)
      ensures effects == old(effects) + [UpdateCredits(userId, creditFee)]
      ensures image == old(image) && values == old(values) && isSubmitting == old(isSubmitting)
    {
      isTransforming := true;
      var merged := Utils.DeepMergeObjects(newTransformation, transformationConfig);
      Utils.DeepMergeCovers(newTransformation, transformationConfig);
      transformationConfig := merged;
      newTransformation := Null;
      effects := effects + [UpdateCredits(userId, creditFee)];
    }

    /** `setIsTransforming(false)`, which the transformed-image preview calls once
        the transformed image has loaded or failed. */
    method TransformationSettled()
      requires Valid()
      modifies this
      ensures Valid()
      ensures !isTransforming && (ApplyDisabled() <==> newTransformation == Null)
      ensures image == old(image) && newTransformation == old(newTransformation) && values == old(values)
      ensures transformationConfig == old(transformationConfig) && effects == old(effects)
      ensures isSubmitting == old(isSubmitting)
    {
      isTransforming := false;
    }

    /** The uploader's `setImage` and `onValueChange`, after an upload. The
        uploader hands over a new image object, so the image effect runs. */
    method ImageUploaded(uploaded: JsValue, publicId: string)
      requires Valid()
      modifies this
      ensures Valid()
      ensures image == uploaded && values == old(values).(publicId := Str(publicId))
      ensures Truthy(uploaded) && AutoConfigured(transformationType) ==> newTransformation == typeConfig
      ensures !(Truthy(uploaded) && AutoConfigured(transformationType)) ==> newTransformation == old(newTransformation)
      ensures transformationConfig == old(transformationConfig) && effects == old(effects)
      ensures isSubmitting == old(isSubmitting) && isTransforming == old(isTransforming)
    {
      image := uploaded;
      values := values.(publicId := Str(publicId));
      ImageChanged();
    }

    /** The effect that runs after the mount and after every change of the
        image: for types with no inputs, a present image makes the type's
        settings pending. The handlers that change the image end with it. */
    method ImageChanged()
      requires Valid()
      modifies this
      ensures Valid()
      ensures Truthy(image) && AutoConfigured(transformationType) ==> newTransformation == typeConfig
      ensures !(Truthy(image) && AutoConfigured(transformationType)) ==> newTransformation == old(newTransformation)
      ensures image == old(image) && values == old(values) && transformationConfig == old(transformationConfig)
      ensures effects == old(effects)
      ensures isSubmitting == old(isSubmitting) && isTransforming == old(isTransforming)
    {
      if Truthy(image) && AutoConfigured(transformationType) {
        newTransformation := typeConfig;
      }
    }

    /** `form.handleSubmit(onSubmit)`. `accepted` is whether the form schema
        accepts the fields (`onSubmit` runs only then), `urlFailure` what
        `getCldImageUrl` throws, if it throws, and `saved` how the `addImage` /
        `updateImage` call ends if it is made. The URL is built, outside any
        `try`, whenever there is a stored or a current image; if that throws,
        `onSubmit` rejects with the form left submitting. Otherwise the save
        request is made; after a saved new image the form is reset and the image
        goes back to `data` (the image effect runs when that changes the image),
        and every save the server confirms opens the saved image's page. */
    method Submit(accepted: bool, urlFailure: Option<Thrown>, saved: Completion<JsValue>)
      returns (thrown: Option<Thrown>)
      requires Valid()
      modifies this
      ensures Valid()
      ensures var buildsUrl := Truthy(data) || Truthy(old(image));
              var req := SaveRequest(action, data, old(image), old(values), transformationType,
                                     old(transformationConfig), userId);
              && (!accepted ==>
                    thrown.None? && isSubmitting == old(isSubmitting)
                    && effects == old(effects) && image == old(image) && values == old(values))
              && (accepted && buildsUrl && urlFailure.Some? ==>
                    thrown == urlFailure && SubmitDisabled()
                    && effects == old(effects) && image == old(image) && values == old(values))
              && (accepted && !(buildsUrl && urlFailure.Some?) ==> thrown.None? && !SubmitDisabled())
              && (accepted && !(buildsUrl && urlFailure.Some?) && req.None? ==>
                    effects == old(effects) && image == old(image) && values == old(values))
              && (accepted && !(buildsUrl && urlFailure.Some?) && req.Some? ==>
                    effects == old(effects) + [req.value]
                               + (if Confirmed(saved) then [Navigate(ImagePage(Get(saved.value, "_id")))] else []))
              && (accepted && !(buildsUrl && urlFailure.Some?) && req.Some? && action == Add && Confirmed(saved) ==>
                    values == initialValues && image == data)
              && (accepted && !(buildsUrl && urlFailure.Some?) && req.Some? && !(action == Add && Confirmed(saved)) ==>
                    values == old(values) && image == old(image))
      ensures var reset := accepted && !((Truthy(data) || Truthy(old(image))) && urlFailure.Some?)
                           && action == Add && Confirmed(saved)
                           && SaveRequest(action, data, old(image), old(values), transformationType,
                                          old(transformationConfig), userId).Some?;
              var rerun := reset && old(image) != data && Truthy(data) && AutoConfigured(transformationType);
              && (rerun ==> newTransformation == typeConfig)
              && (!rerun ==> newTransformation == old(newTransformation))
      ensures transformationConfig == old(transformationConfig) && isTransforming == old(isTransforming)
    {
      if !accepted {
        return None;
      }
      isSubmitting := true;
      if (Truthy(data) || Truthy(image)) && urlFailure.Some? {
        return urlFailure;
      }
      var req := SaveRequest(action, data, image, values, transformationType, transformationConfig, userId);
      if req.Some? {
        effects := effects + [req.value];
        if Confirmed(saved) {
          if action == Add {
            values := initialValues;
            if image != data {
              image := data;
              ImageChanged();
            }
          }
          effects := effects + [Navigate(ImagePage(Get(saved.value, "_id")))];
        }
      }
      isSubmitting := false;
      thrown := None;
    }
  }
}
