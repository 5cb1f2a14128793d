/**
 * The state transitions of the admin page in client/src/pages/admin.tsx,
 * taken out of the React component: the form contents `PuppyFormData`,
 * the record being edited, and the handlers that move between them.
 * Rendering, the modal's open flag, toasts and the network requests are
 * not modelled; `handleSubmit` yields the request it would send.
 */
module Admin {
  import opened Wrappers
  import opened Schema
  import opened JsNumber
  import Storage

  const DefaultBreed: string := "American Pit Bull Terrier"

  /** Every input of the form holds text; `price` is the text of a number input. */
  datatype PuppyFormData = PuppyFormData(
    name: string,
    breed: string,
    age: string,
    weight: string,
    gender: string,
    price: string,
    color: string,
    description: string,
    images: seq<string>)

  /** The form together with `editingPuppy` (`None` when adding a new record). */
  datatype FormState = FormState(form: PuppyFormData, editing: Option<Puppy>)

  /** The text inputs of the form, each with its own `onChange` handler. */
  datatype Field = Name | Breed | Age | Weight | Gender | Price | Color | Description

  /**
   * The JSON body `handleSubmit` builds: the insert shape, with the price as
   * `parseInt` returned it (NaN for an empty or non-numeric input).
   */
  datatype Payload = Payload(
    name: string,
    breed: string,
    age: string,
    weight: string,
    gender: string,
    price: Parsed,
    color: string,
    description: Option<string>,
    images: seq<string>,
    isAvailable: bool,
    healthStatus: string,
    isVaccinated: bool,
    isInsured: bool,
    freeDelivery: bool)

  /** The mutation `handleSubmit` triggers: POST a new record, or PATCH the edited one. */
  datatype Submission = Create(data: Payload) | Update(id: string, data: Payload)

  /** The text a field currently holds. */
  function Get(form: PuppyFormData, f: Field): string {
    match f
    case Name => form.name
    case Breed => form.breed
    case Age => form.age
    case Weight => form.weight
    case Gender => form.gender
    case Price => form.price
    case Color => form.color
    case Description => form.description
  }

  /** `resetForm` (and the initial state): empty inputs, the default breed, no images, nothing edited. */
  function ResetForm(): (st: FormState)
    ensures st.editing == None && st.form.images == []
    ensures forall f :: Get(st.form, f) == (if f == Breed then DefaultBreed else "")
  {
    FormState(PuppyFormData("", DefaultBreed, "", "", "", "", "", "", []), None)
  }

  /** `onChange` of one input: `{ ...prev, field: value }`. */
  function EditField(form: PuppyFormData, f: Field, value: string): (r: PuppyFormData)
    ensures Get(r, f) == value
    ensures forall g :: g != f ==> Get(r, g) == Get(form, g)
    ensures r.images == form.images
  {
    match f
    case Name => form.(name := value)
    case Breed => form.(breed := value)
    case Age => form.(age := value)
    case Weight => form.(weight := value)
    case Gender => form.(gender := value)
    case Price => form.(price := value)
    case Color => form.(color := value)
    case Description => form.(description := value)
  }

  /**
   * `openEditModal`: the record's text fields and images are copied, the
   * price is rendered in decimal and a null description shows as empty.
   */
  function OpenEditModal(p: Puppy): (st: FormState)
    ensures st.editing == Some(p)
    ensures st.form.name == p.name && st.form.breed == p.breed && st.form.age == p.age
    ensures st.form.weight == p.weight && st.form.gender == p.gender && st.form.color == p.color
    ensures st.form.images == p.images
    ensures st.form.price == IntToString(p.price)
    ensures ParseInt(st.form.price) == Int(p.price)
    ensures st.form.description == "" <==> p.description == None || p.description == Some("")
    ensures st.form.description != "" ==> p.description == Some(st.form.description)
  {
    var price := IntToString(p.price);
    assert ParseInt(price) == Int(p.price) by { ParseIntInvertsToString(p.price); }
    var description := if p.description.Some? then p.description.value else "";
    FormState(
      PuppyFormData(p.name, p.breed, p.age, p.weight, p.gender, price, p.color, description, p.images),
      Some(p))
  }

  /**
   * `handleSubmit`: the text fields and images are sent as typed, the price
   * parsed, an empty description sent as null, and the four flags and the
   * health status always set to their defaults. An edit targets the edited
   * record's id; otherwise a new record is created.
   */
  function HandleSubmit(st: FormState): (r: Submission)
    ensures r.Update? <==> st.editing.Some?
    ensures r.Update? ==> r.id == st.editing.value.id
    ensures r.data.name == st.form.name && r.data.breed == st.form.breed && r.data.age == st.form.age
    ensures r.data.weight == st.form.weight && r.data.gender == st.form.gender
    ensures r.data.color == st.form.color && r.data.images == st.form.images
    ensures r.data.price == ParseInt(st.form.price)
    ensures r.data.description == None <==> st.form.description == ""
    ensures r.data.description.Some? ==> r.data.description.value == st.form.description
    ensures r.data.isAvailable && r.data.isVaccinated && r.data.isInsured && r.data.freeDelivery
    ensures r.data.healthStatus == DefaultHealthStatus
  {
    var f := st.form;
    var data := Payload(f.name, f.breed, f.age, f.weight, f.gender, ParseInt(f.price), f.color,
                        if f.description == "" then None else Some(f.description), f.images,
                        true, DefaultHealthStatus, true, true, true);
    match st.editing
    case Some(p) => Update(p.id, data)
    case None => Create(data)
  }

  /**
   * The values of the gender `<select>` other than its "Select Gender"
   * placeholder, whose value is empty. A gender matching none of the
   * options leaves the placeholder selected.
   */
  const GenderOptions: set<string> := {"Male", "Female", "Male & Female"}

  /**
   * The browser's constraint validation: the form's submit event reaches
   * `handleSubmit` only when every `required` control holds a non-empty
   * value. For name, age, weight, price and color that is the input's text;
   * the gender select has one only when the gender is one of its options.
   */
  predicate Submittable(form: PuppyFormData) {
    form.name != "" && form.age != "" && form.weight != "" && form.gender in GenderOptions
    && form.price != "" && form.color != ""
  }

  /** Pressing the submit button: `handleSubmit` runs exactly when the form is submittable. */
  function Submit(st: FormState): (r: Option<Submission>)
    ensures r.Some? <==> Submittable(st.form)
    ensures r.Some? ==> r.value == HandleSubmit(st)
    ensures r.Some? ==> (r.value.Update? <==> st.editing.Some?)
    ensures r.Some? ==> r.value.data.price == ParseInt(st.form.price)
  {
    if Submittable(st.form) then Some(HandleSubmit(st)) else None
  }

  /** `handleImageAdd`: the prompt's answer is appended when it is a non-empty string. */
  function HandleImageAdd(form: PuppyFormData, entered: Option<string>): (r: PuppyFormData)
    ensures forall f :: Get(r, f) == Get(form, f)
    ensures entered.Some? && entered.value != "" ==> r.images == form.images + [entered.value]
    ensures entered == None || entered == Some("") ==> r == form
  {
    match entered
    case Some(url) => if url != "" then form.(images := form.images + [url]) else form
    case None => form
  }

  /** `images.filter((_, i) => i !== index)`, walking the list from its end. */
  function FilterIndex(images: seq<string>, index: int): (r: seq<string>)
    ensures 0 <= index < |images| ==> r == images[..index] + images[index + 1..]
    ensures !(0 <= index < |images|) ==> r == images
  {
    if |images| == 0 then []
    else
      var last := |images| - 1;
      var kept := FilterIndex(images[..last], index);
      if last == index then kept else kept + [images[last]]
  }

  /** `handleImageRemove`: drops exactly the image at `index`; any other index changes nothing. */
  function HandleImageRemove(form: PuppyFormData, index: int): (r: PuppyFormData)
    ensures forall f :: Get(r, f) == Get(form, f)
    ensures 0 <= index < |form.images| ==>
              |r.images| == |form.images| - 1
              && (forall i :: 0 <= i < index ==> r.images[i] == form.images[i])
              && (forall i :: index <= i < |r.images| ==> r.images[i] == form.images[i + 1])
    ensures !(0 <= index < |form.images|) ==> r == form
  {
    form.(images := FilterIndex(form.images, index))
  }

  /**
   * Removing the image just added undoes the addition; after an empty
   * answer nothing was added and the index is out of range.
   */
  lemma AddThenRemoveLast(form: PuppyFormData, url: string)
    ensures HandleImageRemove(HandleImageAdd(form, Some(url)), |form.images|) == form
  {
    assert (form.images + [url])[..|form.images|] == form.images;
  }

  /** The fields of a payload that the form round-trips agree with the record. */
  predicate Reproduces(d: Payload, p: Puppy) {
    d.name == p.name && d.breed == p.breed && d.age == p.age && d.weight == p.weight
    && d.gender == p.gender && d.price == Int(p.price) && d.color == p.color
    && d.description == p.description && d.images == p.images
  }

  /**
   * Edit then save with no change: an update of the same id whose payload
   * reproduces the record exactly when its description is not the empty
   * string (an empty one comes back as null).
   */
  lemma EditSubmitRoundTrip(p: Puppy)
    ensures HandleSubmit(OpenEditModal(p)).Update?
    ensures HandleSubmit(OpenEditModal(p)).id == p.id
    ensures Reproduces(HandleSubmit(OpenEditModal(p)).data, p) <==> p.description != Some("")
  {
  }

  /** Every record the store holds passes through edit-and-save unchanged in its editable fields. */
  lemma StoredPuppyRoundTrip(s: Storage.Store, id: string)
    requires Storage.Valid(s) && id in s.puppies
    ensures Reproduces(HandleSubmit(OpenEditModal(s.puppies[id])).data, s.puppies[id])
  {
    EditSubmitRoundTrip(s.puppies[id]);
  }

  /**
   * Saving an edit overwrites the availability, health and insurance
   * columns with their defaults: whatever the record held before, the
   * payload sends the default values, so a record whose flags differ from
   * the defaults cannot be saved unchanged.
   */
  lemma EditSubmitResetsFlags(p: Puppy)
    ensures var d := HandleSubmit(OpenEditModal(p)).data;
            (Some(d.isAvailable) == p.isAvailable && Some(d.healthStatus) == p.healthStatus
             && Some(d.isVaccinated) == p.isVaccinated && Some(d.isInsured) == p.isInsured
             && Some(d.freeDelivery) == p.freeDelivery)
            <==> HasDefaultFlags(p)
  {
  }

  /** A fresh form cannot be submitted: its required inputs are empty. */
  lemma SubmitFreshForm()
    ensures !Submittable(ResetForm().form)
    ensures Submit(ResetForm()) == None
  {
  }

  /**
   * The form opened on a record can be submitted exactly when the record's
   * required text fields are non-empty and its gender is one of the select's
   * options; the rendered price never is empty.
   */
  lemma EditFormSubmittable(p: Puppy)
    ensures Submittable(OpenEditModal(p).form)
            <==> p.name != "" && p.age != "" && p.weight != "" && p.gender in GenderOptions && p.color != ""
  {
  }

  /**
   * A number input accepts any valid floating-point text, but `parseInt`
   * reads only its leading integer: a price of ".5" is sent as NaN, "12.5"
   * as 12 and "3e3" as 3.
   */
  lemma SubmitNonIntegerPrice(st: FormState)
    requires Submittable(st.form)
    ensures st.form.price == ".5" ==> Submit(st).value.data.price == NaN
    ensures st.form.price == "12.5" ==> Submit(st).value.data.price == Int(12)
    ensures st.form.price == "3e3" ==> Submit(st).value.data.price == Int(3)
  {
    ParseIntStopsAtNonDigit();
  }

  /** Editing one input changes only the matching part of the submitted payload. */
  lemma EditFieldThenSubmit(st: FormState, f: Field, value: string)
    ensures var before := HandleSubmit(st).data;
            var after := HandleSubmit(st.(form := EditField(st.form, f, value))).data;
            (f != Name ==> after.name == before.name)
            && (f != Breed ==> after.breed == before.breed)
            && (f != Age ==> after.age == before.age)
            && (f != Weight ==> after.weight == before.weight)
            && (f != Gender ==> after.gender == before.gender)
            && (f != Price ==> after.price == before.price)
            && (f != Color ==> after.color == before.color)
            && (f != Description ==> after.description == before.description)
            && after.images == before.images
  {
  }
}
