/** `AddProductPage`: the product schema and the submit handler with its
    snackbar and delayed reset. */
module AddProductPage {
  import opened Js
  import opened Browser
  import opened Validation
  import opened Http

  /** One entry of `GET /api/v1/categories`, offered in the category menu. */
  datatype Category = Category(id: string, name: string)

  /** The form values; `price` is the number Yup parsed (`None` when the field
      is not a number, as the initial empty string is) and `status` the checkbox. */
  datatype Values = Values(
    code: string, name: string, excerpt: string, description: string, category: string,
    price: Option<real>, status: Option<bool>)

  const InitialValues := Values("", "", "", "", "", None, Some(true))

  const MaxPrice: real := 100000.0

  /** `price`: a number, positive, and at most 100,000. */
  predicate ValidPrice(price: Option<real>)
  {
    price.Some? && 0.0 < price.value <= MaxPrice
  }

  /** The whole schema. */
  function Valid(v: Values): (b: bool)
    ensures b <==> && 1 <= |v.code| <= 6 && 3 <= |v.name| <= 30 && 1 <= |v.excerpt| <= 200
                   && 30 <= |v.description| <= 500 && v.category != ""
                   && v.price.Some? && 0.0 < v.price.value <= MaxPrice && v.status.Some?
  {
    && Required(v.code) && |v.code| <= 6
    && Required(v.name) && LengthBetween(v.name, 3, 30)
    && Required(v.excerpt) && |v.excerpt| <= 200
    && Required(v.description) && LengthBetween(v.description, 30, 500)
    && Required(v.category)
    && ValidPrice(v.price)
    && v.status.Some?
  }

  /** The form starts with `status` checked and is not submittable as it stands. */
  lemma InitialValuesInvalid()
    ensures InitialValues.status == Some(true)
    ensures !Valid(InitialValues)
  {
  }

  /** Fractional prices pass; zero and anything above 100,000 do not. */
  lemma PriceBounds()
    ensures ValidPrice(Some(0.5)) && ValidPrice(Some(MaxPrice))
    ensures !ValidPrice(Some(0.0)) && !ValidPrice(Some(MaxPrice + 0.01))
  {
  }

  const SuccessText := "Product successfully added!"
  const FailureText := "Failed to add product."

  /** The page's own state. `resetPending` stands for the 2-second timer that
      clears `loading`, resets the form and goes to `/`. */
  class Page {
    var categories: seq<Category>
    var loading: bool
    var openSnackbar: bool
    var snackbarMessage: string
    var snackbarSeverity: string
    var values: Values
    var resetPending: bool

    constructor ()
      ensures categories == []
      ensures !loading && !openSnackbar && snackbarMessage == "" && snackbarSeverity == "success"
      ensures values == InitialValues && !resetPending
    {
      categories := [];
      loading, openSnackbar, snackbarMessage, snackbarSeverity := false, false, "", "success";
      values, resetPending := InitialValues, false;
    }

    /** The mount effect: the category menu is filled from the API; a failure is only logged. */
    method LoadCategories(response: Outcome<seq<Category>>)
      modifies this
      ensures response.Ok? ==> categories == response.data
      ensures response.Fail? ==> categories == old(categories)
      ensures loading == old(loading) && openSnackbar == old(openSnackbar) && values == old(values)
      ensures snackbarMessage == old(snackbarMessage) && snackbarSeverity == old(snackbarSeverity)
      ensures resetPending == old(resetPending)
    {
      if response.Ok? {
        categories := response.data;
      }
    }

    /** `handleSubmit`: on failure the snackbar shows an error and `loading` is
        cleared at once; on success it shows success and `loading` stays set
        until the delayed step. */
    method HandleSubmit(submitted: Values, posted: bool)
      modifies this
      ensures openSnackbar && values == submitted
      ensures posted ==> snackbarMessage == SuccessText && snackbarSeverity == "success" && loading && resetPending
      ensures !posted ==> snackbarMessage == FailureText && snackbarSeverity == "error" && !loading
      ensures !posted ==> resetPending == old(resetPending)
      ensures categories == old(categories)
    {
      values := submitted;
      loading := true;
      if posted {
        snackbarMessage := SuccessText;
        snackbarSeverity := "success";
        openSnackbar := true;
        resetPending := true;
      } else {
        snackbarMessage := FailureText;
        snackbarSeverity := "error";
        openSnackbar := true;
        loading := false;
      }
    }

    /** The delayed step after a successful post. */
    method FireTimer(w: Window)
      requires resetPending
      modifies this, w
      ensures !loading && values == InitialValues && !resetPending
      ensures w.location == "/" && w.storage == old(w.storage)
      ensures openSnackbar == old(openSnackbar) && snackbarMessage == old(snackbarMessage)
      ensures snackbarSeverity == old(snackbarSeverity) && categories == old(categories)
    {
      loading := false;
      values := InitialValues;
      resetPending := false;
      w.Navigate("/");
    }

    method HandleCloseSnackbar()
      modifies this
      ensures !openSnackbar
      ensures loading == old(loading) && snackbarMessage == old(snackbarMessage)
      ensures snackbarSeverity == old(snackbarSeverity) && values == old(values) && resetPending == old(resetPending)
      ensures categories == old(categories)
    {
      openSnackbar := false;
    }
  }
}
