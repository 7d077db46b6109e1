/** The address form (`src/components/address/AddressForm.tsx`): its
    validation schema, the values it starts from, and the submit step that
    turns empty optional texts into null before handing the data on. */
module AddressForm {
  import opened Seqs
  import opened Text
  import opened Types

  /** The form's values. An optional text field is `None` when it is unset. */
  datatype FormData = FormData(
    name: string,
    phoneNumber: string,
    email: Option<string>,
    address: string,
    city: Option<string>,
    state: Option<string>,
    country: Option<string>,
    postalCode: Option<string>,
    website: Option<string>,
    rating: Option<real>,
    reviews: Option<int>,
    latitude: Option<real>,
    longitude: Option<real>,
    status: Option<string>,
    isBusiness: bool,
    businessName: Option<string>,
    businessCategory: Option<string>,
    hasReceivedMessage: bool)

  /** The nine optional texts the submit step cleans. */
  function CleanedFields(d: FormData): seq<Option<string>>
  {
    [d.email, d.city, d.state, d.country, d.postalCode, d.website, d.status,
     d.businessName, d.businessCategory]
  }

  /** No cleaned field holds the empty text. */
  predicate IsClean(d: FormData)
  {
    forall i :: 0 <= i < |CleanedFields(d)| ==> CleanedFields(d)[i] != Some("")
  }

  /** The `cleanedData` of `handleSubmit`. */
  function Cleanup(d: FormData): (r: FormData)
    ensures IsClean(r)
    ensures r.name == d.name && r.phoneNumber == d.phoneNumber && r.address == d.address
    ensures r.rating == d.rating && r.reviews == d.reviews
    ensures r.latitude == d.latitude && r.longitude == d.longitude
    ensures r.isBusiness == d.isBusiness && r.hasReceivedMessage == d.hasReceivedMessage
  {
    d.(email := NullIfEmpty(d.email), city := NullIfEmpty(d.city), state := NullIfEmpty(d.state),
       country := NullIfEmpty(d.country), postalCode := NullIfEmpty(d.postalCode),
       website := NullIfEmpty(d.website), status := NullIfEmpty(d.status),
       businessName := NullIfEmpty(d.businessName), businessCategory := NullIfEmpty(d.businessCategory))
  }

  /** Each cleaned field becomes null exactly when it was unset or empty, and
      keeps its text otherwise. */
  lemma CleanupFields(d: FormData)
    ensures var before := CleanedFields(d);
      var after := CleanedFields(Cleanup(d));
      |after| == |before| &&
      forall i :: 0 <= i < |before| ==>
        (after[i].None? <==> before[i].None? || before[i] == Some("")) &&
        (after[i].Some? ==> after[i] == before[i])
  {
    var before := CleanedFields(d);
    var after := CleanedFields(Cleanup(d));
    forall i | 0 <= i < |before|
      ensures after[i] == NullIfEmpty(before[i])
    {
      if i < 3 {
      } else if i < 6 {
      } else {
      }
    }
  }

  /** Cleaning changes a form exactly when it holds an empty optional text, so
      cleaning twice is cleaning once. */
  lemma CleanupFixedPoints(d: FormData)
    ensures Cleanup(d) == d <==> IsClean(d)
    ensures Cleanup(Cleanup(d)) == Cleanup(d)
  {
    if IsClean(d) {
      assert CleanedFields(d)[0] != Some("");
      assert CleanedFields(d)[1] != Some("");
      assert CleanedFields(d)[2] != Some("");
      assert CleanedFields(d)[3] != Some("");
      assert CleanedFields(d)[4] != Some("");
      assert CleanedFields(d)[5] != Some("");
      assert CleanedFields(d)[6] != Some("");
      assert CleanedFields(d)[7] != Some("");
      assert CleanedFields(d)[8] != Some("");
    }
    var c := Cleanup(d);
    assert CleanedFields(c)[0] != Some("");
    assert CleanedFields(c)[1] != Some("");
    assert CleanedFields(c)[2] != Some("");
    assert CleanedFields(c)[3] != Some("");
    assert CleanedFields(c)[4] != Some("");
    assert CleanedFields(c)[5] != Some("");
    assert CleanedFields(c)[6] != Some("");
    assert CleanedFields(c)[7] != Some("");
    assert CleanedFields(c)[8] != Some("");
  }

  /** A text that is empty, unset, or accepted by a format check. */
  predicate BlankOr(v: Option<string>, format: string -> bool)
  {
    v.None? || v.value == "" || format(v.value)
  }

  /** `addressSchema`; the e-mail and URL format checks are parameters. */
  predicate Valid(d: FormData, isEmail: string -> bool, isUrl: string -> bool)
  {
    d.name != "" && d.phoneNumber != "" && d.address != "" &&
    BlankOr(d.email, isEmail) && BlankOr(d.website, isUrl) &&
    (d.rating.Some? ==> 0.0 <= d.rating.value <= 5.0) &&
    (d.reviews.Some? ==> d.reviews.value >= 0)
  }

  /** Cleaning a valid form keeps it valid. */
  lemma CleanupKeepsValid(d: FormData, isEmail: string -> bool, isUrl: string -> bool)
    requires Valid(d, isEmail, isUrl)
    ensures Valid(Cleanup(d), isEmail, isUrl)
  {
  }

  /** `x || undefined` on an optional number: zero counts as unset. */
  function NonZeroReal(v: Option<real>): Option<real>
  {
    if v.Some? && v.value != 0.0 then v else None
  }

  function NonZeroInt(v: Option<int>): Option<int>
  {
    if v.Some? && v.value != 0 then v else None
  }

  /** `defaultValues`: blank for a new entry, the entry's own values when editing. */
  function Defaults(initial: Option<Address>): FormData
  {
    match initial
    case None =>
      FormData("", "", Some(""), "", Some(""), Some(""), Some("Indonesia"), Some(""), Some(""),
               None, None, None, None, Some(""), false, Some(""), Some(""), false)
    case Some(a) =>
      FormData(a.name, a.phoneNumber, Some(TextOr(a.email, "")), a.address,
               Some(TextOr(a.city, "")), Some(TextOr(a.state, "")), Some(TextOr(a.country, "Indonesia")),
               Some(TextOr(a.postalCode, "")), Some(TextOr(a.website, "")),
               NonZeroReal(a.rating), NonZeroInt(a.reviews), NonZeroReal(a.latitude), NonZeroReal(a.longitude),
               Some(TextOr(a.status, "")), a.isBusiness, Some(TextOr(a.businessName, "")),
               Some(TextOr(a.businessCategory, "")), a.hasReceivedMessage)
  }

  /** A new entry starts in Indonesia, as a non-business never messaged, with
      the required texts empty (so the blank form is not yet valid). */
  lemma NewEntryDefaults(isEmail: string -> bool, isUrl: string -> bool)
    ensures var d := Defaults(None);
      d.country == Some("Indonesia") && !d.isBusiness && !d.hasReceivedMessage &&
      d.name == "" && !Valid(d, isEmail, isUrl)
  {
  }

  /** Opening an entry for editing and submitting it unchanged gives back the
      entry's own values, except that an unset country becomes "Indonesia" and
      a zero number (rating, review count, latitude or longitude) becomes unset. */
  lemma EditRoundTrip(a: Address)
    ensures var c := Cleanup(Defaults(Some(a)));
      c.name == a.name && c.phoneNumber == a.phoneNumber && c.address == a.address &&
      c.email == NullIfEmpty(a.email) && c.city == NullIfEmpty(a.city) &&
      c.state == NullIfEmpty(a.state) && c.postalCode == NullIfEmpty(a.postalCode) &&
      c.website == NullIfEmpty(a.website) && c.status == NullIfEmpty(a.status) &&
      c.businessName == NullIfEmpty(a.businessName) &&
      c.businessCategory == NullIfEmpty(a.businessCategory) &&
      c.country == (if NullIfEmpty(a.country).None? then Some("Indonesia") else a.country) &&
      c.rating == NonZeroReal(a.rating) && c.reviews == NonZeroInt(a.reviews) &&
      c.latitude == NonZeroReal(a.latitude) && c.longitude == NonZeroReal(a.longitude) &&
      c.isBusiness == a.isBusiness && c.hasReceivedMessage == a.hasReceivedMessage
  {
  }

  /** The form's submitting flag. */
  class Form {
    var isSubmitting: bool

    constructor()
      ensures !isSubmitting
    {
      isSubmitting := false;
    }

    /** `handleSubmit`: returns what is handed to `onSubmit`; the flag is down
        again afterwards. */
    method HandleSubmit(d: FormData) returns (submitted: FormData)
      modifies this`isSubmitting
      ensures submitted == Cleanup(d)
      ensures !isSubmitting
    {
      isSubmitting := true;
      submitted := Cleanup(d);
      isSubmitting := false;
    }
  }
}
