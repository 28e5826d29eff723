/** The controller advice that turns the exceptions escaping a request into
    `application/problem+json` responses. Each handler builds a fresh problem
    with the same rules as the shared problem-detail builders (its private
    `problem`, `buildEnumProblem`, `extractFieldName` and `allowedValues` are
    copies of them), attaches the request URI in place and wraps the problem
    in a response whose status is the problem's own. */
module ExceptionHandling {
  import opened Wrappers
  import opened JavaText
  import opened LinkedMaps
  import opened ProblemDetails

  const PROBLEM_JSON: string := "application/problem+json"

  /** A `ResponseEntity<ProblemDetail>`: status, content type and body. */
  datatype Response = Response(status: int, contentType: string, body: ProblemDetail)

  /** `problemResponse`. */
  function ProblemResponse(pd: ProblemDetail): (r: Response)
    ensures r.status == r.body.status && r.contentType == PROBLEM_JSON && r.body == pd
  {
    Response(pd.status, PROBLEM_JSON, pd)
  }

  /** `body` is `built` after `attachInstance`: status, title, type, detail
      and every property other than "instance" are those of `built`, and
      "instance" holds the request URI exactly when there is a request. */
  ghost predicate Attached(body: ProblemDetail, built: ProblemDetail, requestUri: Option<string>) {
    && body.status == built.status && body.title == built.title
    && body.typeUri == built.typeUri && body.detail == built.detail
    && (forall k :: k != "instance" ==> Property(body, k) == Property(built, k))
    && (requestUri.Some? ==> Property(body, "instance") == Some(Text(requestUri.value)))
    && (requestUri.None? ==> body == built)
  }

  /** Builds the problem afresh, attaches the request and answers with it. */
  method Respond(built: ProblemDetail, requestUri: Option<string>) returns (r: Response)
    ensures r.status == built.status && r.contentType == PROBLEM_JSON
    ensures Attached(r.body, built, requestUri)
  {
    var pd := new ProblemDetailHandle(built);
    AttachInstance(pd, requestUri);
    WithInstanceChangesOnlyInstance(built, requestUri);
    r := ProblemResponse(pd.value);
  }

  /** `handleMethodArgumentNotValid`: 400 "Validation failed" with the
      first-wins map of field errors under "errors". */
  method HandleMethodArgumentNotValid(errors: seq<FieldError>, requestUri: Option<string>) returns (r: Response)
    ensures r.status == BAD_REQUEST && r.contentType == PROBLEM_JSON
    ensures r.body.title == Some("Validation failed") && r.body.typeUri == TypeUri("validation-error")
    ensures Property(r.body, "errors") == Some(TextMap(FirstWins(FieldErrorEntries(errors))))
    ensures Attached(r.body, BuildFromBindingErrors(errors), requestUri)
  {
    r := Respond(BuildFromBindingErrors(errors), requestUri);
  }

  /** `handleConstraintViolation`: 400 "Constraint violation" with the
      first-wins map of violations under "errors". */
  method HandleConstraintViolation(vs: seq<ConstraintViolation>, requestUri: Option<string>) returns (r: Response)
    ensures r.status == BAD_REQUEST && r.contentType == PROBLEM_JSON
    ensures r.body.title == Some("Constraint violation") && r.body.typeUri == TypeUri("constraint-violation")
    ensures Property(r.body, "errors") == Some(TextMap(FirstWins(ViolationEntries(vs))))
    ensures Attached(r.body, BuildFromConstraintViolations(vs), requestUri)
  {
    r := Respond(BuildFromConstraintViolations(vs), requestUri);
  }

  /** `handleNotFound` (`NoSuchElementException`): 404 "Resource not found"
      with the exception's message as detail. */
  method HandleNotFound(message: Option<string>, requestUri: Option<string>) returns (r: Response)
    ensures r.status == NOT_FOUND && r.contentType == PROBLEM_JSON
    ensures r.body.title == Some("Resource not found") && r.body.typeUri == TypeUri("not-found")
    ensures r.body.detail == message
    ensures Property(r.body, "instance").Some? <==> requestUri.Some?
    ensures Attached(r.body, BuildNotFound(Some("Resource not found"), message), requestUri)
  {
    r := Respond(BuildNotFound(Some("Resource not found"), message), requestUri);
  }

  /** `handleConflict`: 409 with the fixed detail, and the root cause's
      message under "rootCause" only when there is one. */
  method HandleConflict(rootCauseMessage: Option<string>, requestUri: Option<string>) returns (r: Response)
    ensures r.status == CONFLICT && r.contentType == PROBLEM_JSON
    ensures r.body.title == Some("Data integrity violation") && r.body.typeUri == TypeUri("conflict")
    ensures r.body.detail == Some("Unique or foreign key constraint violated.")
    ensures Property(r.body, "rootCause").Some? <==> rootCauseMessage.Some?
    ensures rootCauseMessage.Some? ==> Property(r.body, "rootCause") == Some(Text(rootCauseMessage.value))
    ensures Attached(r.body, BuildDataIntegrityViolation(rootCauseMessage), requestUri)
  {
    var built := BuildDataIntegrityViolation(rootCauseMessage);
    if rootCauseMessage.Some? {
      assert Property(built, "rootCause") == Some(Text(rootCauseMessage.value));
    }
    r := Respond(built, requestUri);
  }

  /** `handleHttpMessageNotReadable`: an enum problem for a value an enum
      cannot take, otherwise 400 "Invalid request body". */
  method HandleHttpMessageNotReadable(ex: NotReadable, requestUri: Option<string>) returns (r: Response)
    ensures r.status == BAD_REQUEST && r.contentType == PROBLEM_JSON
    ensures IsEnumFormatError(ex.cause) <==> r.body.typeUri == TypeUri("invalid-enum")
    ensures !IsEnumFormatError(ex.cause) ==>
      && r.body.title == Some("Invalid request body") && r.body.typeUri == TypeUri("invalid-request-body")
      && r.body.detail == (if ex.mostSpecificMessage.Some? then ex.mostSpecificMessage else ex.message)
    ensures IsEnumFormatError(ex.cause) ==>
      Property(r.body, "field") == Some(Text(ExtractFieldName(ex.cause.value.path)))
    ensures Attached(r.body, BuildFromUnreadableMessage(ex), requestUri)
  {
    var built := BuildFromUnreadableMessage(ex);
    if IsEnumFormatError(ex.cause) {
      assert Property(built, "field") == Some(Text(ExtractFieldName(ex.cause.value.path)));
    }
    r := Respond(built, requestUri);
  }

  /** `handleMethodArgumentTypeMismatch`: an enum problem for an enum
      parameter, otherwise 400 "Invalid request parameter" naming the
      parameter. */
  method HandleMethodArgumentTypeMismatch(ex: TypeMismatch, requestUri: Option<string>) returns (r: Response)
    ensures r.status == BAD_REQUEST && r.contentType == PROBLEM_JSON
    ensures ex.requiredType.Some? && ex.requiredType.value.isEnum ==>
      && r.body.typeUri == TypeUri("invalid-enum")
      && Property(r.body, "field") == Some(Text(ex.name))
    ensures !(ex.requiredType.Some? && ex.requiredType.value.isEnum) ==>
      && r.body.title == Some("Invalid request parameter") && r.body.typeUri == TypeUri("invalid-request-parameter")
      && r.body.detail == ex.message && Property(r.body, "parameter") == Some(Text(ex.name))
    ensures Attached(r.body, BuildFromTypeMismatch(ex), requestUri)
  {
    var built := BuildFromTypeMismatch(ex);
    if ex.requiredType.Some? && ex.requiredType.value.isEnum {
      assert Property(built, "field") == Some(Text(ex.name));
    } else {
      assert Property(built, "parameter") == Some(Text(ex.name));
    }
    r := Respond(built, requestUri);
  }

  /** `handleIllegalArgument`: 400 "Invalid request" with the message. */
  method HandleIllegalArgument(message: Option<string>, requestUri: Option<string>) returns (r: Response)
    ensures r.status == BAD_REQUEST && r.contentType == PROBLEM_JSON
    ensures r.body.title == Some("Invalid request") && r.body.typeUri == TypeUri("invalid-request")
    ensures r.body.detail == message
    ensures Attached(r.body, BuildBadRequest(Some("Invalid request"), message), requestUri)
  {
    r := Respond(BuildBadRequest(Some("Invalid request"), message), requestUri);
  }

  /** `handleProductNotFound`: 404 "Product not found" with the message. It
      shares status and type with `handleNotFound`; only the title differs. */
  method HandleProductNotFound(message: Option<string>, requestUri: Option<string>) returns (r: Response)
    ensures r.status == NOT_FOUND && r.contentType == PROBLEM_JSON
    ensures r.body.title == Some("Product not found") && r.body.typeUri == TypeUri("not-found")
    ensures r.body.detail == message
    ensures Attached(r.body, BuildNotFound(Some("Product not found"), message), requestUri)
  {
    r := Respond(BuildNotFound(Some("Product not found"), message), requestUri);
  }

  /** `handleProductValidation`: 400 "Product validation failed" carrying
      the joined validation messages as detail. */
  method HandleProductValidation(message: Option<string>, requestUri: Option<string>) returns (r: Response)
    ensures r.status == BAD_REQUEST && r.contentType == PROBLEM_JSON
    ensures r.body.title == Some("Product validation failed") && r.body.typeUri == TypeUri("validation-error")
    ensures r.body.detail == message
    ensures Attached(r.body, BuildProductValidation(message), requestUri)
  {
    r := Respond(BuildProductValidation(message), requestUri);
  }

  /** `handleGeneric`: 500 "Internal server error"; the detail prefixes the
      message, which reads "null" when the exception has none. */
  method HandleGeneric(message: Option<string>, requestUri: Option<string>) returns (r: Response)
    ensures r.status == INTERNAL_SERVER_ERROR && r.contentType == PROBLEM_JSON
    ensures r.body.title == Some("Internal server error") && r.body.typeUri == TypeUri("server-error")
    ensures r.body.detail == Some("An unexpected error occurred: " + Show(message))
    ensures Attached(r.body, BuildServerError(Some("An unexpected error occurred: " + Show(message))), requestUri)
  {
    r := Respond(BuildServerError(Some("An unexpected error occurred: " + Show(message))), requestUri);
  }
}
