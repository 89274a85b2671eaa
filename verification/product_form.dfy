/** The seller's new-product form: the price sanitiser applied while typing and
    the checks made, in order, when the form is submitted. */
module ProductForm {
  import opened Wrappers
  import opened Masks
  import opened Roles

  /** The text fields of the form. The `images` array is left out: nothing
      in the form changes it. */
  type Form = map<string, string>

  /** `handleChange`: the `price` field is sanitised, any other field is
      stored as typed. */
  function HandleChange(form: Form, name: string, value: string): (r: Form)
    ensures r.Keys == form.Keys + {name}
    ensures forall k :: k in form && k != name ==> r[k] == form[k]
    ensures name != "price" ==> r[name] == value
    ensures name == "price" ==> r[name] == PriceMask(value)
    ensures name == "price" ==> AllIn(r[name], PriceChar) && multiset(r[name]) <= multiset(value)
  {
    form[name := if name == "price" then PriceMask(value) else value]
  }

  /** Re-entering the stored value of a field changes nothing. */
  lemma HandleChangeStable(form: Form, name: string, value: string)
    ensures var r := HandleChange(form, name, value);
            HandleChange(r, name, r[name]) == r
  {
    var r := HandleChange(form, name, value);
    if name == "price" {
      PriceMaskIdempotent(value);
    }
  }

  const ErrNotSignedIn := "Debes iniciar sesión para crear un producto"
  const ErrNotSeller := "No tienes permisos para crear productos"
  const ErrMissingFields := "Los campos Título y Precio son obligatorios"

  /** The page state `handleSubmit` writes: the error text shown above the
      form and the loading flag. */
  datatype SubmitState = SubmitState(error: string, loading: bool)

  /** A field's value; an absent field reads as `undefined`, which is falsy
      like the empty string. */
  function Field(form: Form, name: string): string {
    if name in form then form[name] else ""
  }

  /** `handleSubmit`: clear the error, then require a signed-in user, then
      the seller role, then a non-empty title and price; the first check
      that fails sets its message and stops. When all pass, loading starts.
      The insertion itself is not written in the source. */
  function Submit(prev: SubmitState, form: Form, user: Option<string>, profiles: seq<Profile>): (r: SubmitState)
    ensures r.error in {"", ErrNotSignedIn, ErrNotSeller, ErrMissingFields}
    ensures r.error == "" <==>
      user.Some? && IsSeller(user, profiles) && Field(form, "title") != "" && Field(form, "price") != ""
    ensures r.error == "" ==> r.loading
    ensures r.error != "" ==> r.loading == prev.loading
  {
    var cleared := prev.(error := "");
    if user.None? then cleared.(error := ErrNotSignedIn)
    else if !IsSeller(user, profiles) then cleared.(error := ErrNotSeller)
    else if Field(form, "title") == "" || Field(form, "price") == "" then cleared.(error := ErrMissingFields)
    else cleared.(loading := true)
  }

  /** The previous error never survives a submit: the outcome does not
      depend on it. */
  lemma SubmitClearsPreviousError(e1: string, e2: string, loading: bool, form: Form, user: Option<string>, profiles: seq<Profile>)
    ensures Submit(SubmitState(e1, loading), form, user, profiles) == Submit(SubmitState(e2, loading), form, user, profiles)
  {
  }

  /** The checks run in a fixed order: a missing user is reported even when
      the form is empty, and a missing role before missing fields. */
  lemma SubmitCheckOrder(prev: SubmitState, form: Form, user: Option<string>, profiles: seq<Profile>)
    ensures user.None? ==> Submit(prev, form, user, profiles).error == ErrNotSignedIn
    ensures user.Some? && !IsSeller(user, profiles) ==> Submit(prev, form, user, profiles).error == ErrNotSeller
    ensures IsSeller(user, profiles) && (Field(form, "title") == "" || Field(form, "price") == "") ==>
      Submit(prev, form, user, profiles).error == ErrMissingFields
  {
  }

  /** Only emptiness is checked: a title made only of blanks is accepted,
      with any non-empty price. */
  lemma BlankTitleAccepted(prev: SubmitState, user: Option<string>, profiles: seq<Profile>, title: string, price: string)
    requires IsSeller(user, profiles)
    requires title != "" && forall i :: 0 <= i < |title| ==> title[i] == ' '
    requires price != ""
    ensures Submit(prev, map["title" := title, "price" := price], user, profiles).error == ""
  {
  }
}
