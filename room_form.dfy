/**
 * The add/edit room form: its validation schema, its default values, and the
 * submit step that substitutes a placeholder image URL.
 */
module RoomForm {
  import opened Wrappers
  import opened Types
  import opened Ids

  /** What the form holds. `imageUrl` is optional; `price` is already coerced to a number. */
  datatype FormValues = FormValues(
    name: string,
    description: string,
    price: real,
    imageUrl: Option<string>,
    imageHint: string)

  /** What the form hands to the rooms page on a successful submit. */
  datatype RoomData = RoomData(
    name: string,
    description: string,
    price: real,
    imageUrl: string,
    imageHint: string)

  datatype Field = NameField | DescriptionField | PriceField | ImageHintField

  datatype FieldError = FieldError(field: Field, message: string)

  const NameMessage := "Name must be at least 2 characters."
  const DescriptionMessage := "Description must be at least 10 characters."
  const PriceMessage := "Price must be a positive number."
  const ImageHintMessage := "Image hint must be at least 2 characters."

  predicate Flags(es: seq<FieldError>, f: Field) {
    exists e :: e in es && e.field == f
  }

  /** One field's finding: nothing when its rule holds, its message otherwise. */
  function Check(ok: bool, f: Field): (es: seq<FieldError>)
    ensures forall g :: Flags(es, g) <==> !ok && g == f
    ensures forall e :: e in es ==> e.message == MessageOf(e.field)
  {
    if ok then [] else
      assert FieldError(f, MessageOf(f)) in [FieldError(f, MessageOf(f))];
      [FieldError(f, MessageOf(f))]
  }

  lemma FlagsConcat(a: seq<FieldError>, b: seq<FieldError>, f: Field)
    ensures Flags(a + b, f) <==> Flags(a, f) || Flags(b, f)
  {
    if Flags(a + b, f) {
      var e :| e in a + b && e.field == f;
      assert e in a || e in b;
    }
    if Flags(a, f) {
      var e :| e in a && e.field == f;
      assert e in a + b;
    }
    if Flags(b, f) {
      var e :| e in b && e.field == f;
      assert e in a + b;
    }
  }

  /** The schema's findings, one per failing field, in schema order. */
  function Errors(v: FormValues): (es: seq<FieldError>)
    ensures Flags(es, NameField) <==> |v.name| < 2
    ensures Flags(es, DescriptionField) <==> |v.description| < 10
    ensures Flags(es, PriceField) <==> v.price < 0.0
    ensures Flags(es, ImageHintField) <==> |v.imageHint| < 2
    ensures forall e :: e in es ==> e.message == MessageOf(e.field)
  {
    var a := Check(|v.name| >= 2, NameField);
    var b := Check(|v.description| >= 10, DescriptionField);
    var c := Check(v.price >= 0.0, PriceField);
    var d := Check(|v.imageHint| >= 2, ImageHintField);
    forall f ensures Flags(a + b + c + d, f) <==> Flags(a, f) || Flags(b, f) || Flags(c, f) || Flags(d, f) {
      FlagsConcat(a, b, f);
      FlagsConcat(a + b, c, f);
      FlagsConcat(a + b + c, d, f);
    }
    a + b + c + d
  }

  function MessageOf(f: Field): string {
    match f
    case NameField => NameMessage
    case DescriptionField => DescriptionMessage
    case PriceField => PriceMessage
    case ImageHintField => ImageHintMessage
  }

  predicate Accepted(v: FormValues) {
    Errors(v) == []
  }

  /**
   * The schema accepts exactly the values meeting the four bounds. A price of
   * zero is accepted, whatever the wording of its message; the image URL is
   * never checked.
   */
  lemma AcceptedIff(v: FormValues)
    ensures Accepted(v) <==>
      |v.name| >= 2 && |v.description| >= 10 && v.price >= 0.0 && |v.imageHint| >= 2
  {
    if !Accepted(v) {
      var e := Errors(v)[0];
      assert e in Errors(v);
    }
  }

  /** The `onSubmit` step: an empty or missing image URL becomes the placeholder. */
  function Submit(v: FormValues, stamp: nat): (d: RoomData)
    ensures d.name == v.name && d.description == v.description
    ensures d.price == v.price && d.imageHint == v.imageHint
    ensures v.imageUrl.Some? && v.imageUrl.value != "" ==> d.imageUrl == v.imageUrl.value
    ensures !(v.imageUrl.Some? && v.imageUrl.value != "") ==> d.imageUrl == PlaceholderUrl(stamp)
    ensures d.imageUrl != ""
  {
    var url := if v.imageUrl.Some? && v.imageUrl.value != "" then v.imageUrl.value else PlaceholderUrl(stamp);
    RoomData(v.name, v.description, v.price, url, v.imageHint)
  }

  datatype Outcome = Saved(data: RoomData) | Rejected(errors: seq<FieldError>)

  /** `form.handleSubmit(onSubmit)`: the submit step runs only on accepted values. */
  function HandleSubmit(v: FormValues, stamp: nat): (o: Outcome)
    ensures o.Saved? <==> Accepted(v)
    ensures o.Saved? ==> o.data == Submit(v, stamp)
    ensures o.Rejected? ==> o.errors == Errors(v) && o.errors != []
  {
    if Accepted(v) then Saved(Submit(v, stamp)) else Rejected(Errors(v))
  }

  /**
   * The form's initial values: the edited room's fields, or empty text and a
   * price of 0 when adding. (`x || ""` and `x || 0` give `x` back for every
   * string and every non-NaN number.)
   */
  function DefaultValues(room: Option<Room>): (v: FormValues)
    ensures room.None? ==> v == FormValues("", "", 0.0, Some(""), "")
    ensures room.Some? ==>
      && v.name == room.value.name
      && v.description == room.value.description
      && v.price == room.value.price
      && v.imageUrl == Some(room.value.imageUrl)
      && v.imageHint == room.value.imageHint.GetOr("")
  {
    match room
    case None => FormValues("", "", 0.0, Some(""), "")
    case Some(r) => FormValues(r.name, r.description, r.price, Some(r.imageUrl), r.imageHint.GetOr(""))
  }

  /** An untouched add form cannot be saved: name, description and hint are too short. */
  lemma EmptyAddFormRejected(stamp: nat)
    ensures HandleSubmit(DefaultValues(None), stamp)
         == Rejected([FieldError(NameField, NameMessage),
                      FieldError(DescriptionField, DescriptionMessage),
                      FieldError(ImageHintField, ImageHintMessage)])
  {
  }
}
