/**
 * `ToolForm`: the add/edit form. Its submit handler computes one error flag per
 * field, stores the flags, and passes the trimmed fields on only when no flag is set.
 * URL parsing (`new URL(...)`, the URL Standard's parser) is the parameter `isValidUrl`.
 */
module ToolForm {
  import opened Wrappers
  import opened JsText
  import opened ToolList

  /** The `errors` state: one flag per field. */
  datatype FieldErrors = FieldErrors(name: bool, description: bool, url: bool) {
    /** `Object.values(errors).some(Boolean)`. */
    predicate Any() {
      name || description || url
    }
  }

  const NoErrors := FieldErrors(false, false, false)
  const UrlRequired := "URL is required"
  const UrlInvalid := "Please enter a valid URL"

  /** The flags `handleSubmit` computes, one per field (the untrimmed url is the one parsed). */
  function Validate(name: string, description: string, url: string, isValidUrl: string -> bool): FieldErrors {
    FieldErrors(Trim(name) == "", Trim(description) == "", Trim(url) == "" || !isValidUrl(url))
  }

  /** What `handleSubmit` passes to `onSubmit`, or `None` when it does not call it. */
  function Submission(name: string, description: string, url: string, isValidUrl: string -> bool): Option<ToolFields> {
    if Validate(name, description, url, isValidUrl).Any() then None
    else Some(ToolFields(Trim(name), Trim(description), Trim(url)))
  }

  /**
   * A field is in error exactly when it is blank; the url is in error also when the
   * parser rejects it.
   */
  lemma ValidateFlags(name: string, description: string, url: string, isValidUrl: string -> bool)
    ensures var e := Validate(name, description, url, isValidUrl);
            && (e.name <==> Blank(name))
            && (e.description <==> Blank(description))
            && (e.url <==> Blank(url) || !isValidUrl(url))
  {
  }

  /**
   * Nothing is submitted exactly when a flag is set; otherwise the submitted fields are
   * the trimmed inputs, each non-empty and free of outer whitespace, with a url the parser accepted.
   */
  lemma SubmissionContents(name: string, description: string, url: string, isValidUrl: string -> bool)
    ensures var r := Submission(name, description, url, isValidUrl);
            && (r.None? <==> Validate(name, description, url, isValidUrl).Any())
            && (r.Some? ==> r.value == ToolFields(Trim(name), Trim(description), Trim(url)))
            && (r.Some? ==> r.value.name != "" && r.value.description != "" && r.value.url != "")
            && (r.Some? ==> Trimmed(r.value.name) && Trimmed(r.value.description) && Trimmed(r.value.url))
            && (r.Some? ==> isValidUrl(url))
  {
  }

  /** The text under the url field: shown only with the url flag, chosen by the url's current text. */
  function UrlMessage(errors: FieldErrors, url: string): (r: Option<string>)
    ensures r.None? <==> !errors.url
    ensures r.Some? ==> (r.value == UrlRequired <==> Blank(url))
    ensures r.Some? ==> (r.value == UrlInvalid <==> !Blank(url))
  {
    if !errors.url then None
    else if Trim(url) == "" then Some(UrlRequired)
    else Some(UrlInvalid)
  }

  /** Right after a submit, "Please enter a valid URL" means the parser rejected a non-blank url. */
  lemma UrlMessageAfterSubmit(name: string, description: string, url: string, isValidUrl: string -> bool)
    ensures var m := UrlMessage(Validate(name, description, url, isValidUrl), url);
            (m == Some(UrlRequired) <==> Blank(url))
            && (m == Some(UrlInvalid) <==> !Blank(url) && !isValidUrl(url))
  {
  }

  class Form {
    var name: string
    var description: string
    var url: string
    var errors: FieldErrors
    const isValidUrl: string -> bool

    /** `useState(initialData?.x || "")` for each field, and no error flags. */
    constructor (initialData: Option<Tool>, isValidUrl: string -> bool)
      ensures name == (if initialData.Some? then initialData.value.name else "")
      ensures description == (if initialData.Some? then initialData.value.description else "")
      ensures url == (if initialData.Some? then initialData.value.url else "")
      ensures errors == NoErrors && this.isValidUrl == isValidUrl
    {
      name := if initialData.Some? && initialData.value.name != "" then initialData.value.name else "";
      description := if initialData.Some? && initialData.value.description != "" then initialData.value.description else "";
      url := if initialData.Some? && initialData.value.url != "" then initialData.value.url else "";
      errors := NoErrors;
      this.isValidUrl := isValidUrl;
    }

    method SetName(v: string)
      modifies this`name
      ensures name == v
    {
      name := v;
    }

    method SetDescription(v: string)
      modifies this`description
      ensures description == v
    {
      description := v;
    }

    method SetUrl(v: string)
      modifies this`url
      ensures url == v
    {
      url := v;
    }

    /**
     * `handleSubmit`: stores the computed flags and returns the argument of the
     * `onSubmit` call, or `None` when `onSubmit` is not called.
     */
    method HandleSubmit() returns (submitted: Option<ToolFields>)
      modifies this`errors
      ensures errors == Validate(name, description, url, isValidUrl)
      ensures submitted == Submission(name, description, url, isValidUrl)
      ensures submitted.Some? <==> !errors.Any()
    {
      var n, d, u := name, description, url;
      var newErrors := Validate(n, d, u, isValidUrl);
      errors := newErrors;
      if newErrors.Any() {
        return None;
      }
      submitted := Some(ToolFields(Trim(n), Trim(d), Trim(u)));
    }

    /** The message under the url field as currently rendered. */
    function UrlErrorText(): (r: Option<string>)
      reads this
      ensures r.None? <==> !errors.url
      ensures r.Some? ==> (r.value == UrlRequired <==> Blank(url))
      ensures r.Some? ==> (r.value == UrlInvalid <==> !Blank(url))
    {
      UrlMessage(errors, url)
    }
  }
}
