/** The listing form without its rendering: the edited fields, the five
    image-address inputs, and the listing handed back on submit. */
module PropertyForm {
  import opened Wrappers
  import opened Types
  import opened Seqs
  import opened Text

  /** The number of image inputs the form offers. */
  const SLOTS: nat := 5

  /** A form field, as `keyof PropertyFormData` names them. */
  datatype Field =
    | Id | Title | Kind | Location | Price | Status | Bedrooms | Bathrooms | Area
    | Description | Features | AvailableFrom | IsRental | Images

  /** A value an input hands to the form. */
  datatype Value =
    | Str(s: string)
    | Num(x: real)
    | KindOf(kind: PropertyType)
    | StatusOf(status: PropertyStatus)
    | Flag(b: bool)
    | MaybeStr(o: Option<string>)
    | MaybeImages(images: Option<seq<string>>)

  /** `value` has the shape `field` holds. */
  predicate Fits(field: Field, value: Value) {
    match field
    case Id => value.MaybeStr?
    case Kind => value.KindOf?
    case Status => value.StatusOf?
    case Price | Bedrooms | Bathrooms | Area => value.Num?
    case IsRental => value.Flag?
    case Images => value.MaybeImages?
    case _ => value.Str?
  }

  /** The value `field` holds in `fd`. */
  function Get(fd: FormData, field: Field): (v: Value)
    ensures Fits(field, v)
  {
    match field
    case Id => MaybeStr(fd.id)
    case Title => Str(fd.title)
    case Kind => KindOf(fd.kind)
    case Location => Str(fd.location)
    case Price => Num(fd.price)
    case Status => StatusOf(fd.status)
    case Bedrooms => Num(fd.bedrooms)
    case Bathrooms => Num(fd.bathrooms)
    case Area => Num(fd.area)
    case Description => Str(fd.description)
    case Features => Str(fd.features)
    case AvailableFrom => Str(fd.availableFrom)
    case IsRental => Flag(fd.isRental)
    case Images => MaybeImages(fd.images)
  }

  /** `{ ...fd, [field]: value }`: `field` now holds `value` and every other
      field holds what it held. */
  function Set(fd: FormData, field: Field, value: Value): (r: FormData)
    requires Fits(field, value)
    ensures forall g :: Get(r, g) == if g == field then value else Get(fd, g)
  {
    match field
    case Id => fd.(id := value.o)
    case Title => fd.(title := value.s)
    case Kind => fd.(kind := value.kind)
    case Location => fd.(location := value.s)
    case Price => fd.(price := value.x)
    case Status => fd.(status := value.status)
    case Bedrooms => fd.(bedrooms := value.x)
    case Bathrooms => fd.(bathrooms := value.x)
    case Area => fd.(area := value.x)
    case Description => fd.(description := value.s)
    case Features => fd.(features := value.s)
    case AvailableFrom => fd.(availableFrom := value.s)
    case IsRental => fd.(isRental := value.b)
    case Images => fd.(images := value.images)
  }

  /** The blank form; `today` is the current date as `YYYY-MM-DD`. */
  function Blank(today: string): FormData {
    FormData(None, "", Apartment, "", 0.0, Available, 0.0, 0.0, 0.0, "", "", today, false, Some([]))
  }

  /** A listing as form data (`setFormData(initialData)`): every field of the
      listing, so that submitting it with the listing's id gives the listing
      back with whatever images are submitted. */
  function FromProperty(p: Property): (r: FormData)
    ensures r.id == Some(p.id) && r.images == p.images
    ensures forall images :: ToListing(r, p.id, images) == p.(images := Some(images))
  {
    FormData(Some(p.id), p.title, p.kind, p.location, p.price, p.status, p.bedrooms,
             p.bathrooms, p.area, p.description, p.features, p.availableFrom, p.isRental, p.images)
  }

  /** The first form data: the blank form overlaid with the listing being
      edited, if any. Every field of the listing replaces the blank one, except
      that an absent `images` leaves the blank form's empty list. */
  function InitialFormData(initialData: Option<Property>, today: string): (r: FormData)
    ensures initialData.None? ==> r == Blank(today)
    ensures initialData.Some? ==>
      var p := initialData.value;
      && r.id == Some(p.id)
      && r.images == Some(p.images.GetOr([]))
      && forall images :: ToListing(r, p.id, images) == p.(images := Some(images))
  {
    match initialData
    case None => Blank(today)
    case Some(p) => FromProperty(p).(images := Some(p.images.GetOr([])))
  }

  /** `initialData?.id || newId || ''`: the edited listing's id unless it is
      absent or empty, then the offered id unless it is absent or empty, then
      the empty string. */
  function InitialId(initialData: Option<Property>, newId: Option<string>): (r: string)
    ensures initialData.Some? && initialData.value.id != "" ==> r == initialData.value.id
    ensures (initialData.None? || initialData.value.id == "") && newId.Some? && newId.value != "" ==>
      r == newId.value
    ensures r != "" ==> (initialData.Some? && r == initialData.value.id) || (newId.Some? && r == newId.value)
  {
    if initialData.Some? && initialData.value.id != "" then initialData.value.id
    else if newId.Some? && newId.value != "" then newId.value
    else ""
  }

  /** The images the form submits: the inputs whose trimmed text is not
      empty, as typed (untrimmed) and in input order. */
  function ValidImages(inputs: seq<string>): (r: seq<string>)
    ensures |r| <= |inputs| && IsSubsequence(r, inputs)
    ensures forall i :: 0 <= i < |r| ==> Trim(r[i]) != ""
    ensures forall i :: 0 <= i < |inputs| && Trim(inputs[i]) != "" ==> inputs[i] in r
    ensures forall i :: 0 <= i < |inputs| ==>
      Count(r, inputs[i]) == if Trim(inputs[i]) != "" then Count(inputs, inputs[i]) else 0
  {
    Filter(inputs, (s: string) => Trim(s) != "")
  }

  /** The submitted listing: the form data with the chosen id and images. */
  function ToListing(fd: FormData, id: string, images: seq<string>): Property {
    Property(id, fd.title, fd.kind, fd.location, fd.price, fd.status, fd.bedrooms,
             fd.bathrooms, fd.area, fd.description, fd.features, fd.availableFrom, fd.isRental,
             Some(images))
  }

  /** The five image inputs for a listing's images: input `i` holds image `i`
      when there is one and is empty otherwise. */
  function SlotsOf(existing: seq<string>): seq<string> {
    seq(SLOTS, i requires 0 <= i => if i < |existing| then existing[i] else "")
  }

  /** The number of a listing's images that find an input. */
  function Shown(existing: seq<string>): nat {
    if |existing| < SLOTS then |existing| else SLOTS
  }

  /** The inputs are the images that fit, then empty inputs. */
  lemma SlotsSplit(existing: seq<string>)
    ensures SlotsOf(existing) == existing[..Shown(existing)] + seq(SLOTS - Shown(existing), _ => "")
  {
    var k := Shown(existing);
    var tail := seq(SLOTS - k, _ => "");
    assert forall i :: 0 <= i < SLOTS ==> SlotsOf(existing)[i] == (existing[..k] + tail)[i];
  }

  /** The inputs submit exactly the non-blank ones among the listing's first
      five images, in order; images past the fifth are lost. */
  lemma SlotsSubmitShownImages(existing: seq<string>)
    ensures ValidImages(SlotsOf(existing)) == ValidImages(existing[..Shown(existing)])
  {
    var k := Shown(existing);
    var tail := seq(SLOTS - k, _ => "");
    var keep := (s: string) => Trim(s) != "";
    SlotsSplit(existing);
    FilterAppend(existing[..k], tail, keep);
    assert forall i :: 0 <= i < |tail| ==> Trim(tail[i]) == "";
    FilterKeepsNone(tail, keep);
  }

  /** Images that are all non-blank are submitted unchanged. */
  lemma CleanImagesSubmitted(images: seq<string>)
    requires forall i :: 0 <= i < |images| ==> Trim(images[i]) != ""
    ensures ValidImages(images) == images
  {
    FilterKeepsAll(images, (s: string) => Trim(s) != "");
  }

  /** The five inputs filled from a listing's images: input `i` holds image
      `i` when there is one and is empty otherwise; images past the fifth are
      dropped. */
  method PopulateSlots(existing: seq<string>) returns (slots: seq<string>)
    ensures |slots| == SLOTS
    ensures forall i :: 0 <= i < SLOTS ==> slots[i] == if i < |existing| then existing[i] else ""
    ensures slots == SlotsOf(existing)
  {
    var inputs := new string[SLOTS](_ => "");
    var idx := 0;
    while idx < |existing|
      invariant 0 <= idx <= |existing|
      invariant forall i :: 0 <= i < SLOTS ==> inputs[i] == if i < idx && i < |existing| then existing[i] else ""
    {
      if idx < SLOTS {
        inputs[idx] := existing[idx];
      }
      idx := idx + 1;
    }
    slots := inputs[..];
  }

  /** The form's state. */
  class ListingForm {
    var formData: FormData
    var imageInputs: seq<string>
    var id: string

    /** There are always exactly five image inputs. */
    predicate Valid()
      reads this
    {
      |imageInputs| == SLOTS
    }

    /** The form as first rendered, before its effect runs. */
    constructor (initialData: Option<Property>, newId: Option<string>, today: string)
      ensures Valid() && forall i :: 0 <= i < SLOTS ==> imageInputs[i] == ""
      ensures formData == InitialFormData(initialData, today)
      ensures id == InitialId(initialData, newId)
    {
      formData := InitialFormData(initialData, today);
      imageInputs := ["", "", "", "", ""];
      id := InitialId(initialData, newId);
    }

    /** The effect that runs when `initialData` or `newId` changes: load the
        edited listing, or reset title, location and images for a new one. */
    method Reset(initialData: Option<Property>, newId: Option<string>)
      requires Valid()
      modifies this
      ensures Valid()
      ensures initialData.Some? ==>
        var p := initialData.value;
        var images := p.images.GetOr([]);
        && formData == FromProperty(p) && id == p.id
        && forall i :: 0 <= i < SLOTS ==> imageInputs[i] == if i < |images| then images[i] else ""
      ensures initialData.None? && newId.Some? && newId.value != "" ==>
        && formData == old(formData).(title := "", location := "") && id == newId.value
        && forall i :: 0 <= i < SLOTS ==> imageInputs[i] == ""
      ensures initialData.None? && (newId.None? || newId.value == "") ==>
        formData == old(formData) && imageInputs == old(imageInputs) && id == old(id)
    {
      if initialData.Some? {
        var p := initialData.value;
        formData := FromProperty(p);
        id := p.id;
        imageInputs := PopulateSlots(p.images.GetOr([]));
      } else if newId.Some? && newId.value != "" {
        formData := formData.(title := "", location := "");
        id := newId.value;
        imageInputs := ["", "", "", "", ""];
      }
    }

    /** `handleChange`: only `field` changes. */
    method Change(field: Field, value: Value)
      requires Fits(field, value)
      modifies this`formData
      ensures formData == Set(old(formData), field, value)
    {
      formData := Set(formData, field, value);
    }

    /** `handleImageChange`: input `index` takes `value`; the others keep
        theirs and there are still five. */
    method ChangeImage(index: nat, value: string)
      requires Valid() && index < SLOTS
      modifies this`imageInputs
      ensures Valid()
      ensures imageInputs[index] == value
      ensures forall i :: 0 <= i < SLOTS && i != index ==> imageInputs[i] == old(imageInputs)[i]
    {
      imageInputs := imageInputs[index := value];
    }

    /** `handleSubmit`: the listing handed to the save handler carries the
        chosen id and at most five non-blank image addresses. */
    method Submit() returns (listing: Property)
      requires Valid()
      ensures listing == ToListing(formData, id, ValidImages(imageInputs))
      ensures listing.id == id && listing.images.Some? && |listing.images.value| <= SLOTS
      ensures forall i :: 0 <= i < |listing.images.value| ==> Trim(listing.images.value[i]) != ""
    {
      var validImages := ValidImages(imageInputs);
      listing := ToListing(formData, id, validImages);
    }
  }

  /** Opening the form on a listing and submitting it untouched hands back
      the listing with the non-blank ones among its first five images; a
      listing whose images are five or fewer non-blank addresses comes back
      unchanged. */
  method EditRoundTrip(p: Property, newId: Option<string>, today: string) returns (submitted: Property)
    ensures var existing := p.images.GetOr([]);
      submitted == p.(images := Some(ValidImages(existing[..Shown(existing)])))
    ensures p.images.Some? && |p.images.value| <= SLOTS &&
            (forall i :: 0 <= i < |p.images.value| ==> Trim(p.images.value[i]) != "") ==>
      submitted == p
  {
    var form := new ListingForm(Some(p), newId, today);
    form.Reset(Some(p), newId);
    var existing := p.images.GetOr([]);
    assert form.imageInputs == SlotsOf(existing);
    submitted := form.Submit();
    SlotsSubmitShownImages(existing);
    if p.images.Some? && |p.images.value| <= SLOTS &&
       (forall i :: 0 <= i < |p.images.value| ==> Trim(p.images.value[i]) != "") {
      assert existing[..Shown(existing)] == existing;
      CleanImagesSubmitted(existing);
    }
  }

  /** Opening the form for a new listing under an offered id and submitting
      it untouched hands back a blank listing under that id, available from
      `today`, with no images. An empty offered id leaves the form as first
      rendered, whose id is empty too. */
  method AddRoundTrip(newId: string, today: string) returns (submitted: Property)
    ensures submitted == ToListing(Blank(today), newId, [])
    ensures submitted.id == newId && submitted.availableFrom == today && submitted.images == Some([])
  {
    var form := new ListingForm(None, Some(newId), today);
    form.Reset(None, Some(newId));
    assert form.imageInputs == SlotsOf([]);
    submitted := form.Submit();
    SlotsSubmitShownImages([]);
  }
}
