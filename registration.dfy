/** The five-step sign-up form (components/RegistrationPanel.tsx): the form
    record and its field-by-field updates, the tag toggles, the four photo
    slots, the step counter and the submission that hands a creator to the
    data service. The AI bio text, the geolocation answer and the outcome of
    the insert are parameters of the handlers that receive them. */
module Registration {
  import opened Common
  import opened Text
  import CreatorService

  /** Number of steps of the form. */
  const TotalSteps: int := 5

  /** Number of photo slots the form offers. */
  const PhotoSlots: int := 4

  /** The age submitted when the age text is not a non-zero number. */
  const DefaultAge: int := 18

  /** The city and area a granted location request fills in. */
  const DetectedCity: string := "São Paulo"
  const DetectedArea: string := "Bela Vista"

  /** `formData`: every text input holds a string, the photos are slots. */
  datatype FormData = FormData(
    name: string,
    phone: string,
    age: string,
    location_city: string,
    location_area: string,
    bio: string,
    baseRate: string,
    photos: seq<string>,
    aboutTags: seq<string>,
    servicesTags: seq<string>)

  /** The empty form the component starts with. */
  function InitialForm(): (f: FormData)
    ensures |f.photos| == PhotoSlots && forall i :: 0 <= i < |f.photos| ==> f.photos[i] == ""
    ensures f.aboutTags == [] && f.servicesTags == []
  {
    FormData("", "", "", "", "", "", "", ["", "", "", ""], [], [])
  }

  // ----- `handleChange` -----

  /** The inputs wired to `handleChange`, by their `name` attribute. */
  datatype TextField = NameField | PhoneField | AgeField | CityField | BioField | BaseRateField

  /** `formData[name]` */
  function FieldValue(f: FormData, field: TextField): string {
    match field
    case NameField => f.name
    case PhoneField => f.phone
    case AgeField => f.age
    case CityField => f.location_city
    case BioField => f.bio
    case BaseRateField => f.baseRate
  }

  /** `{ ...prev, [name]: value }`: the named field takes the value and no
      other part of the form changes. */
  function WithField(f: FormData, field: TextField, value: string): (g: FormData)
    ensures FieldValue(g, field) == value
    ensures forall other :: other != field ==> FieldValue(g, other) == FieldValue(f, other)
    ensures g.location_area == f.location_area && g.photos == f.photos
    ensures g.aboutTags == f.aboutTags && g.servicesTags == f.servicesTags
  {
    match field
    case NameField => f.(name := value)
    case PhoneField => f.(phone := value)
    case AgeField => f.(age := value)
    case CityField => f.(location_city := value)
    case BioField => f.(bio := value)
    case BaseRateField => f.(baseRate := value)
  }

  // ----- `toggleTag` -----

  /** The two tag lists of the form. */
  datatype TagCategory = AboutTags | ServicesTags

  function Tags(f: FormData, category: TagCategory): seq<string> {
    match category
    case AboutTags => f.aboutTags
    case ServicesTags => f.servicesTags
  }

  /** `tags.includes(tag) ? tags.filter(t => t !== tag) : [...tags, tag]` */
  function ToggledTags(tags: seq<string>, tag: string): (r: seq<string>)
    ensures tag in tags ==> tag !in r
    ensures tag !in tags ==> r == tags + [tag]
  {
    if tag in tags then Filter(t => t != tag, tags) else tags + [tag]
  }

  /** Toggling is a symmetric difference on membership; a present tag is
      removed with all its repetitions while every other tag keeps its
      count and the list keeps its order. */
  lemma ToggledTagsSpec(tags: seq<string>, tag: string)
    ensures forall t :: t in ToggledTags(tags, tag) <==> (t in tags <==> t != tag)
    ensures tag in tags ==>
      IsSubsequence(ToggledTags(tags, tag), tags) &&
      forall t :: t != tag ==> multiset(ToggledTags(tags, tag))[t] == multiset(tags)[t]
  {
    var p := (t: string) => t != tag;
    if tag in tags {
      FilterMembership(p, tags);
      FilterIsSubsequence(p, tags);
      FilterCounts(p, tags);
    }
  }

  /** Toggling an absent tag on and off again restores the list. */
  lemma ToggleAbsentTwice(tags: seq<string>, tag: string)
    requires tag !in tags
    ensures ToggledTags(ToggledTags(tags, tag), tag) == tags
  {
    var p := (t: string) => t != tag;
    FilterAppend(p, tags, [tag]);
    FilterAllPass(p, tags);
    assert Filter(p, [tag]) == [];
  }

  /** The form after `toggleTag(category, tag)`: only that list changes. */
  function WithToggledTag(f: FormData, category: TagCategory, tag: string): (g: FormData)
    ensures Tags(g, category) == ToggledTags(Tags(f, category), tag)
    ensures forall other :: other != category ==> Tags(g, other) == Tags(f, other)
    ensures forall field :: FieldValue(g, field) == FieldValue(f, field)
    ensures g.location_area == f.location_area && g.photos == f.photos
  {
    match category
    case AboutTags => f.(aboutTags := ToggledTags(f.aboutTags, tag))
    case ServicesTags => f.(servicesTags := ToggledTags(f.servicesTags, tag))
  }

  // ----- submission -----

  /** `photos.filter(p => p.trim() !== '')` */
  function CleanPhotos(photos: seq<string>): (r: seq<string>)
    ensures |r| <= |photos|
    ensures forall i :: 0 <= i < |r| ==> Trim(r[i]) != ""
  {
    Filter(p => Trim(p) != "", photos)
  }

  /** The clean photos are the slots that hold something other than
      whitespace, in slot order, each as often as it fills a slot. */
  lemma CleanPhotosSpec(photos: seq<string>)
    ensures IsSubsequence(CleanPhotos(photos), photos)
    ensures forall p :: p in CleanPhotos(photos) <==> p in photos && !AllWhitespace(p)
    ensures forall p :: multiset(CleanPhotos(photos))[p] == if AllWhitespace(p) then 0 else multiset(photos)[p]
  {
    var keep := (p: string) => Trim(p) != "";
    FilterIsSubsequence(keep, photos);
    FilterMembership(keep, photos);
    FilterCounts(keep, photos);
    forall p
      ensures keep(p) <==> !AllWhitespace(p)
    {
      TrimBlankIff(p);
    }
  }

  /** The first clean photo, which becomes the avatar, is the first slot
      that is not blank. */
  lemma CleanPhotosFirst(photos: seq<string>)
    requires CleanPhotos(photos) != []
    ensures exists k :: 0 <= k < |photos| && CleanPhotos(photos)[0] == photos[k] && !AllWhitespace(photos[k])
                        && forall j :: 0 <= j < k ==> AllWhitespace(photos[j])
  {
    var keep := (p: string) => Trim(p) != "";
    FilterHead(keep, photos);
    var k :| 0 <= k < |photos| && CleanPhotos(photos)[0] == photos[k] && keep(photos[k])
             && forall j :: 0 <= j < k ==> !keep(photos[j]);
    TrimBlankIff(photos[k]);
    forall j | 0 <= j < k
      ensures AllWhitespace(photos[j])
    {
      TrimBlankIff(photos[j]);
    }
  }

  /** The clean photos run out exactly when every slot is blank. */
  lemma CleanPhotosEmptyIff(photos: seq<string>)
    ensures CleanPhotos(photos) == [] <==> forall i :: 0 <= i < |photos| ==> AllWhitespace(photos[i])
  {
    CleanPhotosSpec(photos);
    if CleanPhotos(photos) == [] {
      forall i | 0 <= i < |photos|
        ensures AllWhitespace(photos[i])
      {
        assert photos[i] in photos;
      }
    } else {
      assert CleanPhotos(photos)[0] in CleanPhotos(photos);
    }
  }

  /** `parseInt(formData.age) || 18` */
  function SubmittedAge(text: string): (age: int)
    ensures age != 0
    ensures ParseInt(text).Some? && ParseInt(text).value != 0 ==> age == ParseInt(text).value
    ensures ParseInt(text).None? || ParseInt(text).value == 0 ==> age == DefaultAge
  {
    IntOr(ParseInt(text), DefaultAge)
  }

  /** `parseInt(formData.baseRate) || 0` */
  function SubmittedBaseRate(text: string): (rate: int)
    ensures ParseInt(text).Some? ==> rate == ParseInt(text).value
    ensures ParseInt(text).None? ==> rate == 0
  {
    IntOr(ParseInt(text), 0)
  }

  /** An untouched age or rate input submits the defaults, and a typed
      positive number submits itself. */
  lemma SubmittedNumbers(n: nat)
    ensures SubmittedAge("") == DefaultAge && SubmittedBaseRate("") == 0
    ensures SubmittedAge(Decimal(n)) == (if n == 0 then DefaultAge else n)
    ensures SubmittedBaseRate(Decimal(n)) == n
  {
    ParseIntEmpty();
    ParseIntDecimal(n);
  }

  /** The object `handleSubmit` passes to `create`: the form with the numbers
      parsed, the clean photos, and the first clean photo as avatar. */
  function SubmitInput(f: FormData, clean: seq<string>): (input: CreatorService.CreatorInput)
    requires clean != []
    ensures input.avatar == Some(clean[0]) && input.photos == Some(clean)
    ensures input.age == Some(SubmittedAge(f.age)) && input.baseRate == Some(SubmittedBaseRate(f.baseRate))
    ensures input.name == Some(f.name) && input.location_city == Some(f.location_city)
    ensures input.aboutTags == Some(f.aboutTags) && input.servicesTags == Some(f.servicesTags)
    ensures input.phone == Some(f.phone) && input.bio == Some(f.bio) && input.location_area == Some(f.location_area)
  {
    CreatorService.CreatorInput(
      name := Some(f.name),
      phone := Some(f.phone),
      age := Some(SubmittedAge(f.age)),
      bio := Some(f.bio),
      avatar := Some(clean[0]),
      location_city := Some(f.location_city),
      location_area := Some(f.location_area),
      baseRate := Some(SubmittedBaseRate(f.baseRate)),
      photos := Some(clean),
      aboutTags := Some(f.aboutTags),
      servicesTags := Some(f.servicesTags))
  }

  /** The service's own `Number(...) || default` fallbacks leave the numbers
      the form submits unchanged, so the inserted row carries the form's
      age, rate, photos and tags. */
  lemma SubmitThroughCreate(f: FormData, draw: CreatorService.UsernameDraw)
    requires CleanPhotos(f.photos) != []
    ensures var p := CreatorService.BuildPayload(SubmitInput(f, CleanPhotos(f.photos)), draw);
      && p.age == SubmittedAge(f.age)
      && p.base_rate == SubmittedBaseRate(f.baseRate)
      && p.photos == CleanPhotos(f.photos)
      && p.avatar == Some(CleanPhotos(f.photos)[0])
      && p.about_tags == f.aboutTags && p.services_tags == f.servicesTags
  {
    IntOrStable(ParseInt(f.age), DefaultAge);
  }

  // ----- the component's state -----

  class RegistrationPanel {
    var step: int
    var isSaving: bool
    var showSuccess: bool
    var isGeneratingBio: bool
    var isLocating: bool
    var form: FormData

    /** The step stays between the first and the last, and the form keeps
        its four photo slots. */
    ghost predicate Valid()
      reads this
    {
      1 <= step <= TotalSteps && |form.photos| == PhotoSlots
    }

    constructor ()
      ensures Valid()
      ensures step == 1 && form == InitialForm()
      ensures !isSaving && !showSuccess && !isGeneratingBio && !isLocating
    {
      step := 1;
      isSaving := false;
      showSuccess := false;
      isGeneratingBio := false;
      isLocating := false;
      form := InitialForm();
    }

    /** `handleChange` */
    method HandleChange(field: TextField, value: string)
      requires Valid()
      modifies this`form
      ensures Valid()
      ensures form == WithField(old(form), field, value)
    {
      form := WithField(form, field, value);
    }

    /** `toggleTag` */
    method ToggleTag(category: TagCategory, tag: string)
      requires Valid()
      modifies this`form
      ensures Valid()
      ensures form == WithToggledTag(old(form), category, tag)
    {
      form := WithToggledTag(form, category, tag);
    }

    /** `handlePhotoChange(index, value)`: a copy of the slots with one slot
        replaced; the slots are the four rendered inputs. */
    method HandlePhotoChange(index: int, value: string)
      requires Valid() && 0 <= index < PhotoSlots
      modifies this`form
      ensures Valid()
      ensures |form.photos| == PhotoSlots && form.photos[index] == value
      ensures forall j :: 0 <= j < PhotoSlots && j != index ==> form.photos[j] == old(form.photos[j])
      ensures form == old(form).(photos := form.photos)
    {
      var newPhotos := form.photos;
      newPhotos := newPhotos[index := value];
      form := form.(photos := newPhotos);
    }

    /** "Voltar", disabled on the first step. */
    method Back()
      requires Valid() && step != 1
      modifies this`step
      ensures Valid() && step == old(step) - 1
    {
      step := step - 1;
    }

    /** "Próximo", offered only before the last step. */
    method Next()
      requires Valid() && step < TotalSteps
      modifies this`step
      ensures Valid() && step == old(step) + 1
    {
      step := step + 1;
    }

    /** `handleDetectLocation`: only a browser with geolocation starts a request. */
    method DetectLocation(hasGeolocation: bool)
      modifies this`isLocating
      ensures isLocating == (old(isLocating) || hasGeolocation)
    {
      if hasGeolocation {
        isLocating := true;
      }
    }

    /** The position callback: the coordinates are ignored. */
    method LocationGranted()
      requires Valid()
      modifies this`form, this`isLocating
      ensures Valid()
      ensures form == old(form).(location_city := DetectedCity, location_area := DetectedArea)
      ensures !isLocating
    {
      form := form.(location_city := DetectedCity, location_area := DetectedArea);
      isLocating := false;
    }

    /** The error callback. */
    method LocationDenied()
      modifies this`isLocating
      ensures !isLocating
    {
      isLocating := false;
    }

    /** `handleAiBio` up to the request: without a name or an about-tag it
        stops before starting; otherwise generation is marked as running. */
    method BeginAiBio() returns (started: bool)
      modifies this`isGeneratingBio
      ensures started <==> form.name != "" && form.aboutTags != []
      ensures isGeneratingBio == (if started then true else old(isGeneratingBio))
    {
      if form.name == "" || |form.aboutTags| == 0 {
        return false;
      }
      isGeneratingBio := true;
      started := true;
    }

    /** `handleAiBio` after the text arrives: a non-empty text replaces the
        bio, trimmed; generation stops either way. */
    method FinishAiBio(generated: string)
      requires Valid()
      modifies this`form, this`isGeneratingBio
      ensures Valid()
      ensures form == if generated != "" then old(form).(bio := Trim(generated)) else old(form)
      ensures !isGeneratingBio
    {
      if generated != "" {
        form := form.(bio := Trim(generated));
      }
      isGeneratingBio := false;
    }

    /** `handleSubmit` up to the `create` call. While a save runs nothing
        happens. With no clean photo the save is abandoned and nothing is
        sent. Otherwise the save is marked as running and the creator to
        create is returned. */
    method BeginSubmit() returns (request: Option<CreatorService.CreatorInput>)
      requires Valid()
      modifies this`isSaving
      ensures Valid()
      ensures old(isSaving) ==> request.None? && isSaving
      ensures !old(isSaving) && CleanPhotos(form.photos) == [] ==> request.None? && !isSaving
      ensures !old(isSaving) && CleanPhotos(form.photos) != [] ==>
        request == Some(SubmitInput(form, CleanPhotos(form.photos))) && isSaving
    {
      if isSaving {
        return None;
      }
      isSaving := true;
      var clean := CleanPhotos(form.photos);
      if |clean| == 0 {
        isSaving := false;
        return None;
      }
      request := Some(SubmitInput(form, clean));
    }

    /** `handleSubmit` after `create` settles: success shows the
        confirmation; the save stops either way. */
    method FinishSubmit(created: bool)
      modifies this`showSuccess, this`isSaving
      ensures showSuccess == (old(showSuccess) || created)
      ensures !isSaving
    {
      if created {
        showSuccess := true;
      }
      isSaving := false;
    }
  }
}
