/**
 * The two link-upload forms of the front end: UploadForm.tsx (url, topic
 * title and description, posted to the upload endpoint) and the
 * dashboard's UploadPage.tsx (the same fields with trimmed checks, drag and
 * drop of a url, and the session handling around `createLink`).
 *
 * String lengths are JavaScript's UTF-16 lengths; `\S` is any character
 * other than ECMAScript white space.
 */
module UploadForms {
  import opened Wrappers
  import opened Text

  datatype FieldName = UrlField | TitleField | DescriptionField

  datatype FormData = FormData(url: string, title: string, description: string) {
    function Get(name: FieldName): string {
      match name
      case UrlField => url
      case TitleField => title
      case DescriptionField => description
    }

    /** `{ ...prev, [name]: value }`. */
    function With(name: FieldName, value: string): (r: FormData)
      ensures r.Get(name) == value
      ensures forall other :: other != name ==> r.Get(other) == Get(other)
    {
      match name
      case UrlField => this.(url := value)
      case TitleField => this.(title := value)
      case DescriptionField => this.(description := value)
    }
  }

  const EmptyForm := FormData("", "", "")

  /** An error message per field; `None` is an absent or `undefined` key. */
  datatype FormErrors = FormErrors(url: Option<string>, title: Option<string>, description: Option<string>) {
    function Get(name: FieldName): Option<string> {
      match name
      case UrlField => url
      case TitleField => title
      case DescriptionField => description
    }

    /** `Object.keys(newErrors).length === 0` for the object `validate` builds. */
    predicate IsEmpty() { url.None? && title.None? && description.None? }

    /** `{ ...prev, [name]: undefined }`. */
    function Clear(name: FieldName): (r: FormErrors)
      ensures r.Get(name).None?
      ensures forall other :: other != name ==> r.Get(other) == Get(other)
    {
      match name
      case UrlField => this.(url := None)
      case TitleField => this.(title := None)
      case DescriptionField => this.(description := None)
    }
  }

  const NoErrors := FormErrors(None, None, None)

  /** `/^https?:\/\/\S+$/`: the scheme, then at least one character, none
      of them white space. */
  predicate IsHttpUrl(s: string) {
    (IsPrefix("http://", s) && NonBlankTail(s, 7)) || (IsPrefix("https://", s) && NonBlankTail(s, 8))
  }

  predicate NonBlankTail(s: string, from: nat) {
    from < |s| && forall i :: from <= i < |s| ==> !IsJsWhitespace(s[i])
  }

  /** `text.match(/^https?:\/\//)`: only the scheme is checked. */
  predicate StartsWithScheme(s: string) {
    IsPrefix("http://", s) || IsPrefix("https://", s)
  }

  const UrlFormatMessage := "Enter a valid URL starting with http:// or https://"
  const DescriptionRequiredMessage := "Description is required"
  const DescriptionShortMessage := "Description should be at least 10 characters"
  const MinDescriptionLength := 10

  // ---------------------------------------------------------------------
  // UploadForm.tsx

  /** The errors `validate` collects, field by field. */
  function FormErrorsOf(d: FormData): (e: FormErrors)
    ensures d.url == [] ==> e.url == Some("Link is required")
    ensures d.url != [] && !IsHttpUrl(d.url) ==> e.url == Some(UrlFormatMessage)
    ensures d.title == [] <==> e.title == Some("Topic is required")
    ensures d.description == [] ==> e.description == Some(DescriptionRequiredMessage)
    ensures d.description != [] && Utf16Len(d.description) < MinDescriptionLength ==>
      e.description == Some(DescriptionShortMessage)
  {
    FormErrors(
      if d.url == [] then Some("Link is required")
      else if !IsHttpUrl(d.url) then Some(UrlFormatMessage) else None,
      if d.title == [] then Some("Topic is required") else None,
      if d.description == [] then Some(DescriptionRequiredMessage)
      else if Utf16Len(d.description) < MinDescriptionLength then Some(DescriptionShortMessage) else None)
  }

  /** `validate` passes exactly for an http(s) url, a non-empty topic and a
      description of at least ten code units. */
  lemma FormValidIff(d: FormData)
    ensures FormErrorsOf(d).IsEmpty() <==>
      IsHttpUrl(d.url) && d.title != [] && Utf16Len(d.description) >= MinDescriptionLength
  {
    if IsHttpUrl(d.url) {
      assert |d.url| > 0;
    }
    if Utf16Len(d.description) >= MinDescriptionLength {
      assert d.description != [];
    }
  }

  /** The state of the UploadForm component. */
  class UploadForm {
    var data: FormData
    var errors: FormErrors
    var successMessage: Option<string>
    var isSubmitting: bool

    constructor()
      ensures data == EmptyForm && errors == NoErrors && successMessage == None && !isSubmitting
    {
      data := EmptyForm;
      errors := NoErrors;
      successMessage := None;
      isSubmitting := false;
    }

    /** `validate`: replaces the errors and reports whether there are none. */
    method Validate() returns (ok: bool)
      modifies this
      ensures errors == FormErrorsOf(data) && (ok <==> errors.IsEmpty())
      ensures data == old(data) && successMessage == old(successMessage) && isSubmitting == old(isSubmitting)
    {
      var newErrors := NoErrors;
      if data.url == [] {
        newErrors := newErrors.(url := Some("Link is required"));
      } else if !IsHttpUrl(data.url) {
        newErrors := newErrors.(url := Some(UrlFormatMessage));
      }
      if data.title == [] {
        newErrors := newErrors.(title := Some("Topic is required"));
      }
      if data.description == [] {
        newErrors := newErrors.(description := Some(DescriptionRequiredMessage));
      } else if Utf16Len(data.description) < MinDescriptionLength {
        newErrors := newErrors.(description := Some(DescriptionShortMessage));
      }
      errors := newErrors;
      ok := errors.url.None? && errors.title.None? && errors.description.None?;
    }

    /** `handleChange`: one field takes the typed value and only its error
        is cleared. */
    method HandleChange(name: FieldName, value: string)
      modifies this
      ensures data == old(data).With(name, value)
      ensures errors == old(errors).Clear(name)
      ensures successMessage == old(successMessage) && isSubmitting == old(isSubmitting)
    {
      data := data.With(name, value);
      if errors.Get(name).Some? {
        errors := errors.Clear(name);
      }
    }

    /** `handleSubmit`.  `response` is `Some(response.ok)` when the request
        completed and `None` when `fetch` threw; `posted` is the body sent. */
    method HandleSubmit(response: Option<bool>) returns (posted: Option<FormData>)
      modifies this
      ensures errors == FormErrorsOf(old(data))
      ensures !errors.IsEmpty() ==>
        (posted == None && data == old(data) && successMessage == old(successMessage) && isSubmitting == old(isSubmitting))
      ensures errors.IsEmpty() ==> posted == Some(old(data)) && !isSubmitting
      ensures errors.IsEmpty() && response == Some(true) ==>
        successMessage == Some("Link submitted successfully!") && data == EmptyForm
      ensures errors.IsEmpty() && response != Some(true) ==> successMessage == None && data == old(data)
    {
      var ok := Validate();
      if !ok {
        return None;
      }
      isSubmitting := true;
      posted := Some(data);
      if response == Some(true) {
        successMessage := Some("Link submitted successfully!");
        data := EmptyForm;
      } else {
        successMessage := None;
      }
      isSubmitting := false;
    }
  }

  // ---------------------------------------------------------------------
  // dashboard/UploadPage.tsx

  /** The errors the dashboard's `validate` collects: required checks on
      the trimmed title and description (`!s.trim()` is `IsBlank(s)`, by
      `TrimEmptyIff`), the length check on the untrimmed description. */
  function PageErrorsOf(d: FormData): (e: FormErrors)
    ensures IsBlank(d.title) <==> e.title == Some("Title is required")
    ensures d.url == [] ==> e.url == Some("URL is required")
    ensures d.url != [] && !IsHttpUrl(d.url) ==> e.url == Some(UrlFormatMessage)
    ensures IsBlank(d.description) ==> e.description == Some(DescriptionRequiredMessage)
    ensures !IsBlank(d.description) && Utf16Len(d.description) < MinDescriptionLength ==>
      e.description == Some(DescriptionShortMessage)
  {
    FormErrors(
      if d.url == [] then Some("URL is required")
      else if !IsHttpUrl(d.url) then Some(UrlFormatMessage) else None,
      if IsBlank(d.title) then Some("Title is required") else None,
      if IsBlank(d.description) then Some(DescriptionRequiredMessage)
      else if Utf16Len(d.description) < MinDescriptionLength then Some(DescriptionShortMessage) else None)
  }

  /** The body of the dashboard's `validate`: the errors object filled in
      field by field. */
  method CollectPageErrors(d: FormData) returns (newErrors: FormErrors)
    ensures newErrors == PageErrorsOf(d)
  {
    TrimEmptyIff(d.title);
    TrimEmptyIff(d.description);
    newErrors := NoErrors;
    if Trim(d.title) == [] {
      newErrors := newErrors.(title := Some("Title is required"));
    }
    if d.url == [] {
      newErrors := newErrors.(url := Some("URL is required"));
    } else if !IsHttpUrl(d.url) {
      newErrors := newErrors.(url := Some(UrlFormatMessage));
    }
    if Trim(d.description) == [] {
      newErrors := newErrors.(description := Some(DescriptionRequiredMessage));
    } else if Utf16Len(d.description) < MinDescriptionLength {
      newErrors := newErrors.(description := Some(DescriptionShortMessage));
    }
  }

  /** The dashboard's `validate` passes exactly for an http(s) url, a title
      and a description that are not all white space, and a description of
      at least ten code units. */
  lemma PageValidIff(d: FormData)
    ensures PageErrorsOf(d).IsEmpty() <==>
      IsHttpUrl(d.url) && !IsBlank(d.title) && !IsBlank(d.description)
      && Utf16Len(d.description) >= MinDescriptionLength
  {
    if IsHttpUrl(d.url) {
      assert |d.url| > 0;
    }
  }

  /** Whatever the dashboard form accepts, the plain form accepts too. */
  lemma PageStricterThanForm(d: FormData)
    requires PageErrorsOf(d).IsEmpty()
    ensures FormErrorsOf(d).IsEmpty()
  {
    PageValidIff(d);
    FormValidIff(d);
  }

  /** What `createLink` did: returned, threw an `Error` with a message, or
      threw something else. */
  datatype CreateOutcome = Created | ThrewError(message: string) | ThrewOther

  const TokenKey := "token"
  const UserKey := "user"
  const LoginPath := "/login"
  const TokenMissingMessage := "Authentication token not found. Please log in again."

  /** The url error for a failed `createLink`. */
  function SubmitFailureMessage(outcome: CreateOutcome): (m: string)
    requires !outcome.Created?
    ensures outcome.ThrewError? && !Contains(outcome.message, "foreign key constraint") ==> m == outcome.message
    ensures outcome.ThrewError? && Contains(outcome.message, "foreign key constraint") ==>
      m == "Your session has expired. Please log in again."
    ensures outcome.ThrewOther? ==> m == "Failed to submit link. Please try again."
  {
    match outcome
    case ThrewError(message) =>
      if Contains(message, "foreign key constraint") then "Your session has expired. Please log in again."
      else message
    case ThrewOther => "Failed to submit link. Please try again."
  }

  /** A database error about a foreign key: the user behind the token is
      gone, so the session is over. */
  predicate SessionExpired(outcome: CreateOutcome) {
    outcome.ThrewError? && Contains(outcome.message, "foreign key constraint")
  }

  /** A missing or empty token is `!token`. */
  predicate HasToken(storage: map<string, string>) {
    TokenKey in storage && storage[TokenKey] != []
  }

  /** The state of the dashboard's UploadPage, with the browser's local
      storage and the navigations it asked for. */
  class UploadPage {
    var data: FormData
    var errors: FormErrors
    var successMessage: Option<string>
    var isSubmitting: bool
    var storage: map<string, string>
    var navigations: seq<string>

    constructor(storage: map<string, string>)
      ensures data == EmptyForm && errors == NoErrors && successMessage == None && !isSubmitting
      ensures this.storage == storage && navigations == []
    {
      data := EmptyForm;
      errors := NoErrors;
      successMessage := None;
      isSubmitting := false;
      this.storage := storage;
      navigations := [];
    }

    /** The mount effect: a visitor who is signed out or has no stored token
        is sent to the login page. */
    method RedirectIfSignedOut(signedIn: bool)
      modifies this
      ensures !(signedIn && HasToken(old(storage))) ==> navigations == old(navigations) + [LoginPath]
      ensures signedIn && HasToken(old(storage)) ==> navigations == old(navigations)
      ensures data == old(data) && errors == old(errors) && storage == old(storage)
      ensures successMessage == old(successMessage) && isSubmitting == old(isSubmitting)
    {
      if !signedIn || !HasToken(storage) {
        navigations := navigations + [LoginPath];
      }
    }

    /** `handleDrop`: a dropped text that starts with a scheme becomes the
        url; anything else is ignored. */
    method HandleDrop(text: string)
      modifies this
      ensures StartsWithScheme(text) ==> data == old(data).(url := text)
      ensures !StartsWithScheme(text) ==> data == old(data)
      ensures errors == old(errors) && storage == old(storage) && navigations == old(navigations)
      ensures successMessage == old(successMessage) && isSubmitting == old(isSubmitting)
    {
      if StartsWithScheme(text) {
        data := data.(url := text);
      }
    }

    /** The dashboard's `validate`: replaces the errors and reports whether
        there are none. */
    method Validate() returns (ok: bool)
      modifies this
      ensures data == old(data) && errors == PageErrorsOf(data)
      ensures successMessage == old(successMessage) && isSubmitting == old(isSubmitting)
      ensures storage == old(storage) && navigations == old(navigations)
      ensures ok <==> errors.IsEmpty()
    {
      var found := CollectPageErrors(data);
      errors := found;
      ok := found.url.None? && found.title.None? && found.description.None?;
    }

    /** The request itself: `createLink` with the current data, and what
        its outcome does to the page. */
    method Post(outcome: CreateOutcome)
      modifies this
      ensures outcome.Created? ==>
        (successMessage == Some("Link shared successfully!") && data == EmptyForm && errors == old(errors))
      ensures !outcome.Created? ==>
        (errors == NoErrors.(url := Some(SubmitFailureMessage(outcome))) && data == old(data)
         && successMessage == old(successMessage))
      ensures SessionExpired(outcome) ==>
        (storage == old(storage) - {TokenKey, UserKey} && navigations == old(navigations) + [LoginPath])
      ensures !SessionExpired(outcome) ==> (storage == old(storage) && navigations == old(navigations))
      ensures isSubmitting == old(isSubmitting)
    {
      if outcome.Created? {
        successMessage := Some("Link shared successfully!");
        data := EmptyForm;
      } else {
        if SessionExpired(outcome) {
          storage := storage - {TokenKey, UserKey};
          navigations := navigations + [LoginPath];
        }
        errors := NoErrors.(url := Some(SubmitFailureMessage(outcome)));
      }
    }

    /** `handleSubmit` once a user is signed in: validate, check the token,
        then post. */
    method SubmitSignedIn(outcome: CreateOutcome) returns (calls: seq<FormData>)
      modifies this
      ensures !PageErrorsOf(old(data)).IsEmpty() ==>
        (calls == [] && errors == PageErrorsOf(old(data)) && storage == old(storage)
         && navigations == old(navigations) && data == old(data) && successMessage == old(successMessage))
      ensures PageErrorsOf(old(data)).IsEmpty() && !HasToken(old(storage)) ==>
        (calls == [] && errors == NoErrors.(url := Some(TokenMissingMessage)) && storage == old(storage)
         && navigations == old(navigations) && data == old(data) && successMessage == old(successMessage))
      ensures PageErrorsOf(old(data)).IsEmpty() && HasToken(old(storage)) ==> calls == [old(data)]
      ensures calls != [] && outcome.Created? ==>
        (successMessage == Some("Link shared successfully!") && data == EmptyForm && errors == NoErrors)
      ensures calls != [] && !outcome.Created? ==>
        (errors == NoErrors.(url := Some(SubmitFailureMessage(outcome))) && data == old(data)
         && successMessage == old(successMessage))
      ensures calls != [] && SessionExpired(outcome) ==>
        (storage == old(storage) - {TokenKey, UserKey} && navigations == old(navigations) + [LoginPath])
      ensures calls != [] && !SessionExpired(outcome) ==> (storage == old(storage) && navigations == old(navigations))
      ensures PageErrorsOf(old(data)).IsEmpty() ==> !isSubmitting
      ensures !PageErrorsOf(old(data)).IsEmpty() ==> isSubmitting == old(isSubmitting)
    {
      calls := [];
      var ok := Validate();
      if ok {
        isSubmitting := true;
        if !HasToken(storage) {
          errors := NoErrors.(url := Some(TokenMissingMessage));
        } else {
          calls := [data];
          Post(outcome);
        }
        isSubmitting := false;
      }
    }

    /** `handleSubmit`: `signedIn` is whether a user is in the auth context,
        `outcome` what `createLink` would do; `calls` holds the form data
        passed to `createLink` (none or one). */
    method HandleSubmit(signedIn: bool, outcome: CreateOutcome) returns (calls: seq<FormData>)
      modifies this
      ensures !signedIn ==>
        (calls == [] && errors == NoErrors.(url := Some("Please log in to submit links"))
         && navigations == old(navigations) + [LoginPath] && storage == old(storage) && data == old(data)
         && successMessage == old(successMessage))
      ensures signedIn && !PageErrorsOf(old(data)).IsEmpty() ==>
        (calls == [] && errors == PageErrorsOf(old(data)) && storage == old(storage)
         && navigations == old(navigations) && data == old(data) && successMessage == old(successMessage))
      ensures signedIn && PageErrorsOf(old(data)).IsEmpty() && !HasToken(old(storage)) ==>
        (calls == [] && errors == NoErrors.(url := Some(TokenMissingMessage)) && storage == old(storage)
         && navigations == old(navigations) && data == old(data) && successMessage == old(successMessage))
      ensures signedIn && PageErrorsOf(old(data)).IsEmpty() && HasToken(old(storage)) ==> calls == [old(data)]
      ensures calls != [] && outcome.Created? ==>
        (successMessage == Some("Link shared successfully!") && data == EmptyForm && errors == NoErrors)
      ensures calls != [] && !outcome.Created? ==>
        (errors == NoErrors.(url := Some(SubmitFailureMessage(outcome))) && data == old(data)
         && successMessage == old(successMessage))
      ensures calls != [] && SessionExpired(outcome) ==>
        (storage == old(storage) - {TokenKey, UserKey} && navigations == old(navigations) + [LoginPath])
      ensures calls != [] && !SessionExpired(outcome) ==> (storage == old(storage) && navigations == old(navigations))
      ensures signedIn && PageErrorsOf(old(data)).IsEmpty() ==> !isSubmitting
      ensures !signedIn || !PageErrorsOf(old(data)).IsEmpty() ==> isSubmitting == old(isSubmitting)
    {
      if !signedIn {
        calls := [];
        errors := NoErrors.(url := Some("Please log in to submit links"));
        navigations := navigations + [LoginPath];
      } else {
        calls := SubmitSignedIn(outcome);
      }
    }
  }
}
