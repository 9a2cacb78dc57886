/** The form checks of front/src/utils/validators.ts. They answer a boolean
    where the backend checks raise; the e-mail pattern is the backend's. */
module Validators {
  import opened Common
  import Validation

  /** `isValidEmail`: the same regular expression as the backend, so the
      form accepts exactly the addresses the server accepts. */
  function IsValidEmail(email: string): (r: bool)
    ensures r <==> Validation.EmailPattern(email)
    ensures r <==> Validation.ValidateEmail(email) == Pass
  {
    Validation.EmailMatchesPattern(email);
    Validation.IsEmail(email)
  }

  /** `isValidPassword(password, minLength = 6)`; `None` is an omitted
      (undefined) minimum, which takes the default. */
  function IsValidPassword(password: string, minLength: Option<int>): (r: bool)
    ensures minLength.Some? ==> (r <==> Utf16Length(password) >= minLength.value)
    ensures minLength.None? ==> (r <==> Validation.ValidatePassword(password) == Pass)
  {
    var min := if minLength.Some? then minLength.value else 6;
    Utf16Length(password) >= min
  }

  /** `typeof value === "number" && value > 0`: NaN and every non-number fail. */
  function IsPositiveNumber(value: Validation.JsValue): (r: bool)
    ensures r <==> value.Num? && value.n > 0.0
    ensures r ==> Validation.Truthy(value)
  {
    value.Num? && value.n > 0.0
  }
}
