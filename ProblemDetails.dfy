/** The problem-detail builders shared by the service's exception advices:
    pure mappings from an abstracted error to a problem in the sense of
    RFC 9457 (status, title, type, detail and extension properties). The
    `type` is "about:blank#" followed by an identifier of the problem kind
    (section 3.1.1 of RFC 9457), and the request URI is stored as an
    extension property named "instance" rather than in the `instance` member
    (compare section 3.1.5 of RFC 9457). */
module ProblemDetails {
  import opened Wrappers
  import opened JavaText
  import opened LinkedMaps

  const BAD_REQUEST: int := 400
  const NOT_FOUND: int := 404
  const CONFLICT: int := 409
  const INTERNAL_SERVER_ERROR: int := 500
  const TYPE_PREFIX: string := "about:blank#"

  /** The values the builders store as extension properties. */
  datatype PropValue = Text(text: string) | TextMap(entries: seq<(string, string)>) | TextList(items: seq<string>)

  /** A `ProblemDetail`; `properties` is its lazily created `LinkedHashMap`. */
  datatype ProblemDetail = ProblemDetail(
    status: int, title: Option<string>, typeUri: string, detail: Option<string>,
    properties: seq<(string, PropValue)>)

  /** `FieldError`: the field and its possibly null default message. */
  datatype FieldError = FieldError(field: string, defaultMessage: Option<string>)

  /** `ConstraintViolation`: a possibly null property path (as its text) and
      a possibly null message. */
  datatype ConstraintViolation = ConstraintViolation(propertyPath: Option<string>, message: Option<string>)

  /** A class a value failed to convert to: whether it is an enum, and its
      constants in declaration order (`null` for a non-enum class). */
  datatype TargetType = TargetType(isEnum: bool, enumConstants: Option<seq<string>>)

  /** The cause of an `HttpMessageNotReadableException`: Jackson's
      `InvalidFormatException` (target type, the field names along its path,
      the rejected value's text) or anything else. */
  datatype UnreadableCause =
    | InvalidFormat(targetType: Option<TargetType>, path: seq<Option<string>>, value: Option<string>)
    | OtherCause

  /** An `HttpMessageNotReadableException`: its cause, the message of its
      most specific cause, and its own message. */
  datatype NotReadable = NotReadable(cause: Option<UnreadableCause>, mostSpecificMessage: Option<string>, message: Option<string>)

  /** A `MethodArgumentTypeMismatchException`. */
  datatype TypeMismatch = TypeMismatch(requiredType: Option<TargetType>, name: string, value: Option<string>, message: Option<string>)

  /** The type URI of a problem kind. */
  function TypeUri(typeId: string): string {
    TYPE_PREFIX + typeId
  }

  /** `base`: a problem with the status, the title and the type built from
      the identifier, nothing else set. */
  function Base(status: int, title: Option<string>, typeId: string): (p: ProblemDetail)
    ensures p.status == status && p.title == title && p.detail.None? && p.properties == []
    ensures |p.typeUri| == |TYPE_PREFIX| + |typeId|
    ensures p.typeUri[..|TYPE_PREFIX|] == TYPE_PREFIX && p.typeUri[|TYPE_PREFIX|..] == typeId
  {
    ProblemDetail(status, title, TYPE_PREFIX + typeId, None, [])
  }

  /** The type URI names its problem kind: two base problems have the same
      type exactly when they were built from the same identifier. */
  lemma TypeUriDeterminesTypeId(s1: int, t1: Option<string>, id1: string, s2: int, t2: Option<string>, id2: string)
    ensures Base(s1, t1, id1).typeUri == Base(s2, t2, id2).typeUri <==> id1 == id2
  {
    var u1, u2 := Base(s1, t1, id1).typeUri, Base(s2, t2, id2).typeUri;
    if u1 == u2 {
      assert id1 == u1[|TYPE_PREFIX|..] == u2[|TYPE_PREFIX|..] == id2;
    }
  }

  /** The value stored under `key`, if any. */
  function Property(p: ProblemDetail, key: string): Option<PropValue> {
    Lookup(p.properties, key)
  }

  /** `setProperty`. */
  function SetProperty(p: ProblemDetail, key: string, value: PropValue): ProblemDetail {
    p.(properties := Put(p.properties, key, value))
  }

  /** The message each field error contributes. */
  function FieldErrorEntries(errors: seq<FieldError>): (es: seq<(string, string)>)
    ensures |es| == |errors|
    ensures forall i :: 0 <= i < |errors| ==> es[i] == (errors[i].field, errors[i].defaultMessage.GetOr("Invalid value"))
  {
    seq(|errors|, i requires 0 <= i < |errors| => (errors[i].field, errors[i].defaultMessage.GetOr("Invalid value")))
  }

  /** The entry each constraint violation contributes. */
  function ViolationEntries(vs: seq<ConstraintViolation>): (es: seq<(string, string)>)
    ensures |es| == |vs|
    ensures forall i :: 0 <= i < |vs| ==>
      es[i] == (vs[i].propertyPath.GetOr("unknown"), vs[i].message.GetOr("Constraint violated"))
  {
    seq(|vs|, i requires 0 <= i < |vs| => (vs[i].propertyPath.GetOr("unknown"), vs[i].message.GetOr("Constraint violated")))
  }

  /** The message the earliest error on `field` reports, as a reference for
      the collected map. */
  function FirstMessageFor(errors: seq<FieldError>, field: string): Option<string>
    decreases |errors|
  {
    if errors == [] then None
    else if errors[0].field == field then Some(errors[0].defaultMessage.GetOr("Invalid value"))
    else FirstMessageFor(errors[1..], field)
  }

  lemma {:induction false} FieldErrorLookup(errors: seq<FieldError>, field: string)
    ensures Lookup(FieldErrorEntries(errors), field) == FirstMessageFor(errors, field)
    decreases |errors|
  {
    if errors != [] {
      assert FieldErrorEntries(errors)[1..] == FieldErrorEntries(errors[1..]);
      FieldErrorLookup(errors[1..], field);
    }
  }

  /** `buildFromBindingErrors`. */
  function BuildFromBindingErrors(errors: seq<FieldError>): (p: ProblemDetail)
    ensures p.status == BAD_REQUEST && p.title == Some("Validation failed") && p.typeUri == TypeUri("validation-error")
    ensures p.properties == [("errors", TextMap(FirstWins(FieldErrorEntries(errors))))]
  {
    SetProperty(Base(BAD_REQUEST, Some("Validation failed"), "validation-error"),
                "errors", TextMap(FirstWins(FieldErrorEntries(errors))))
  }

  /** The binding-error map has one entry per failing field, in the order
      the fields first fail, each with the first message reported for it
      ("Invalid value" when that message is null). */
  lemma BindingErrorsMap(errors: seq<FieldError>)
    ensures var m := BuildFromBindingErrors(errors).properties[0].1.entries;
      && DistinctKeys(m)
      && (forall f :: f in Keys(m) <==> f in Keys(FieldErrorEntries(errors)))
      && (forall f :: Lookup(m, f) == FirstMessageFor(errors, f))
      && (forall i, j :: 0 <= i < j < |m| ==>
            FirstIndex(FieldErrorEntries(errors), m[i].0) < FirstIndex(FieldErrorEntries(errors), m[j].0))
  {
    FirstWinsIsFirstOccurrenceMap(FieldErrorEntries(errors));
    forall f
      ensures Lookup(FieldErrorEntries(errors), f) == FirstMessageFor(errors, f)
    {
      FieldErrorLookup(errors, f);
    }
  }

  /** The two field errors of the service's binding-error example. */
  lemma BindingErrorsExample()
    ensures BuildFromBindingErrors([FieldError("name", Some("must not be blank")), FieldError("price", Some("must be positive"))]).properties
         == [("errors", TextMap([("name", "must not be blank"), ("price", "must be positive")]))]
  {
    var es := FieldErrorEntries([FieldError("name", Some("must not be blank")), FieldError("price", Some("must be positive"))]);
    assert es == [("name", "must not be blank"), ("price", "must be positive")];
    assert es[..1] == [("name", "must not be blank")];
    assert es[..1][..0] == [];
    assert FirstWins(es[..1]) == [("name", "must not be blank")];
    assert Keys(FirstWins(es[..1])) == ["name"];
    assert "price" != "name";
    assert FirstWins(es) == [("name", "must not be blank"), ("price", "must be positive")];
  }

  /** `buildFromConstraintViolations`. */
  function BuildFromConstraintViolations(vs: seq<ConstraintViolation>): (p: ProblemDetail)
    ensures p.status == BAD_REQUEST && p.title == Some("Constraint violation") && p.typeUri == TypeUri("constraint-violation")
    ensures p.properties == [("errors", TextMap(FirstWins(ViolationEntries(vs))))]
  {
    SetProperty(Base(BAD_REQUEST, Some("Constraint violation"), "constraint-violation"),
                "errors", TextMap(FirstWins(ViolationEntries(vs))))
  }

  /** A violation without a path is filed under "unknown" and one without a
      message reads "Constraint violated"; the first violation per path wins. */
  lemma ConstraintViolationDefaults(vs: seq<ConstraintViolation>)
    ensures var m := BuildFromConstraintViolations(vs).properties[0].1.entries;
      && DistinctKeys(m)
      && (forall k :: Lookup(m, k) == Lookup(ViolationEntries(vs), k))
      && (vs != [] && vs[0].propertyPath.None? && vs[0].message.None? ==> Lookup(m, "unknown") == Some("Constraint violated"))
  {
    FirstWinsIsFirstOccurrenceMap(ViolationEntries(vs));
  }

  /** `buildProductValidation`. */
  function BuildProductValidation(message: Option<string>): (p: ProblemDetail)
    ensures p.status == BAD_REQUEST && p.title == Some("Product validation failed")
    ensures p.typeUri == TypeUri("validation-error") && p.detail == message && p.properties == []
  {
    Base(BAD_REQUEST, Some("Product validation failed"), "validation-error").(detail := message)
  }

  /** `extractFieldName`: the first field name along the path, else "unknown". */
  function ExtractFieldName(path: seq<Option<string>>): (r: string)
    ensures (forall i :: 0 <= i < |path| ==> path[i].None?) ==> r == "unknown"
    ensures forall i :: 0 <= i < |path| && path[i].Some? && (forall j :: 0 <= j < i ==> path[j].None?)
              ==> r == path[i].value
    decreases |path|
  {
    if path == [] then "unknown"
    else if path[0].Some? then path[0].value
    else
      var r := ExtractFieldName(path[1..]);
      assert forall i :: 1 <= i < |path| ==> path[i] == path[1..][i - 1];
      r
  }

  /** `allowedValues`: the constants in declaration order, none for `null`. */
  function AllowedValues(constants: Option<seq<string>>): (r: seq<string>)
    ensures constants.None? ==> r == []
    ensures constants.Some? ==> r == constants.value
  {
    constants.GetOr([])
  }

  /** `buildEnumProblem`. */
  function BuildEnumProblem(constants: Option<seq<string>>, fieldName: Option<string>, invalidValue: string): (p: ProblemDetail)
    ensures p.status == BAD_REQUEST && p.title == Some("Invalid enum value") && p.typeUri == TypeUri("invalid-enum")
    ensures p.detail == Some("Allowed values: " + Join(", ", AllowedValues(constants)))
    ensures p.properties == [("field", Text(fieldName.GetOr("unknown"))), ("invalidValue", Text(invalidValue)),
                             ("allowedValues", TextList(AllowedValues(constants)))]
  {
    var allowed := AllowedValues(constants);
    var p := Base(BAD_REQUEST, Some("Invalid enum value"), "invalid-enum").(detail := Some("Allowed values: " + Join(", ", allowed)));
    var p := SetProperty(p, "field", Text(fieldName.GetOr("unknown")));
    assert Keys(p.properties) == ["field"];
    assert "invalidValue" != "field";
    PutNewKey(p.properties, "invalidValue", Text(invalidValue));
    var p := SetProperty(p, "invalidValue", Text(invalidValue));
    assert Keys(p.properties) == ["field", "invalidValue"];
    assert "allowedValues" != "field" && "allowedValues" != "invalidValue";
    PutNewKey(p.properties, "allowedValues", TextList(allowed));
    SetProperty(p, "allowedValues", TextList(allowed))
  }

  /** The enum example: two constants listed in declaration order. */
  lemma EnumProblemExample()
    ensures BuildEnumProblem(Some(["ELECTRONICS", "HOUSEHOLD"]), Some("category"), "WRONG").detail
         == Some("Allowed values: ELECTRONICS, HOUSEHOLD")
  {
    assert Join(", ", ["ELECTRONICS", "HOUSEHOLD"]) == "ELECTRONICS" + ", " + "HOUSEHOLD";
    assert "Allowed values: " + ("ELECTRONICS" + ", " + "HOUSEHOLD") == "Allowed values: ELECTRONICS, HOUSEHOLD";
  }

  /** An enum class is reported with the constants; otherwise the converter's
      specific cause decides the detail. */
  predicate IsEnumFormatError(cause: Option<UnreadableCause>) {
    && cause.Some? && cause.value.InvalidFormat?
    && cause.value.targetType.Some? && cause.value.targetType.value.isEnum
  }

  /** `buildFromUnreadableMessage`. */
  function BuildFromUnreadableMessage(ex: NotReadable): (p: ProblemDetail)
    ensures p.status == BAD_REQUEST
    ensures IsEnumFormatError(ex.cause) <==> p.typeUri == TypeUri("invalid-enum")
    ensures !IsEnumFormatError(ex.cause) ==>
      && p.title == Some("Invalid request body") && p.typeUri == TypeUri("invalid-request-body")
      && p.detail == (if ex.mostSpecificMessage.Some? then ex.mostSpecificMessage else ex.message)
      && p.properties == []
    ensures IsEnumFormatError(ex.cause) ==>
      var f := ex.cause.value;
      p == BuildEnumProblem(f.targetType.value.enumConstants, Some(ExtractFieldName(f.path)), Show(f.value))
  {
    if IsEnumFormatError(ex.cause) then
      var f := ex.cause.value;
      BuildEnumProblem(f.targetType.value.enumConstants, Some(ExtractFieldName(f.path)), Show(f.value))
    else
      var p := Base(BAD_REQUEST, Some("Invalid request body"), "invalid-request-body");
      assert |p.typeUri| != |TypeUri("invalid-enum")|;
      p.(detail := if ex.mostSpecificMessage.Some? then ex.mostSpecificMessage else ex.message)
  }

  /** `buildFromTypeMismatch`. */
  function BuildFromTypeMismatch(ex: TypeMismatch): (p: ProblemDetail)
    ensures p.status == BAD_REQUEST
    ensures ex.requiredType.Some? && ex.requiredType.value.isEnum ==>
      p == BuildEnumProblem(ex.requiredType.value.enumConstants, Some(ex.name), Show(ex.value))
    ensures !(ex.requiredType.Some? && ex.requiredType.value.isEnum) ==>
      && p.title == Some("Invalid request parameter") && p.typeUri == TypeUri("invalid-request-parameter")
      && p.detail == ex.message && p.properties == [("parameter", Text(ex.name))]
  {
    if ex.requiredType.Some? && ex.requiredType.value.isEnum then
      BuildEnumProblem(ex.requiredType.value.enumConstants, Some(ex.name), Show(ex.value))
    else
      var p := Base(BAD_REQUEST, Some("Invalid request parameter"), "invalid-request-parameter").(detail := ex.message);
      SetProperty(p, "parameter", Text(ex.name))
  }

  /** `buildDataIntegrityViolation`; `rootCauseMessage` is the root cause's
      message, `None` when there is no root cause or it has no message. */
  function BuildDataIntegrityViolation(rootCauseMessage: Option<string>): (p: ProblemDetail)
    ensures p.status == CONFLICT && p.title == Some("Data integrity violation") && p.typeUri == TypeUri("conflict")
    ensures p.detail == Some("Unique or foreign key constraint violated.")
    ensures Property(p, "rootCause").Some? <==> rootCauseMessage.Some?
    ensures rootCauseMessage.Some? ==> p.properties == [("rootCause", Text(rootCauseMessage.value))]
    ensures rootCauseMessage.None? ==> p.properties == []
  {
    var p := Base(CONFLICT, Some("Data integrity violation"), "conflict").(detail := Some("Unique or foreign key constraint violated."));
    if rootCauseMessage.Some? then SetProperty(p, "rootCause", Text(rootCauseMessage.value)) else p
  }

  /** `buildNotFound`. */
  function BuildNotFound(title: Option<string>, detail: Option<string>): (p: ProblemDetail)
    ensures p.status == NOT_FOUND && p.title == title && p.typeUri == TypeUri("not-found")
    ensures p.detail == detail && p.properties == []
  {
    Base(NOT_FOUND, title, "not-found").(detail := detail)
  }

  /** `buildBadRequest`. */
  function BuildBadRequest(title: Option<string>, detail: Option<string>): (p: ProblemDetail)
    ensures p.status == BAD_REQUEST && p.title == title && p.typeUri == TypeUri("invalid-request")
    ensures p.detail == detail && p.properties == []
  {
    Base(BAD_REQUEST, title, "invalid-request").(detail := detail)
  }

  /** `buildServerError`. */
  function BuildServerError(detail: Option<string>): (p: ProblemDetail)
    ensures p.status == INTERNAL_SERVER_ERROR && p.title == Some("Internal server error")
    ensures p.typeUri == TypeUri("server-error") && p.detail == detail && p.properties == []
  {
    Base(INTERNAL_SERVER_ERROR, Some("Internal server error"), "server-error").(detail := detail)
  }

  /** `buildNotFoundFromReason`: a reason "title: detail" is split at its
      first colon and both halves are trimmed; a reason without a colon is
      both title and detail; no reason gives the title "Not Found" and no
      detail. */
  function BuildNotFoundFromReason(reason: Option<string>): (p: ProblemDetail)
    ensures p.status == NOT_FOUND && p.typeUri == TypeUri("not-found") && p.properties == []
    ensures reason.None? ==> p.title == Some("Not Found") && p.detail.None?
    ensures reason.Some? && ':' !in reason.value ==> p.title == reason && p.detail == reason
    ensures reason.Some? && ':' in reason.value ==>
      var i := IndexOf(reason.value, ':');
      p.title == Some(Trim(reason.value[..i])) && p.detail == Some(Trim(reason.value[i + 1..]))
  {
    match reason
    case None => BuildNotFound(Some("Not Found"), None)
    case Some(r) =>
      if ':' in r then
        var i := IndexOf(r, ':');
        BuildNotFound(Some(Trim(r[..i])), Some(Trim(r[i + 1..])))
      else BuildNotFound(Some(r), Some(r))
  }

  /** The split is at the first colon: the title never contains a colon, the
      detail keeps every later one, and the reason is the untrimmed title,
      the colon and the untrimmed detail. */
  lemma NotFoundReasonSplit(reason: string)
    requires ':' in reason
    ensures var p := BuildNotFoundFromReason(Some(reason));
      var i := IndexOf(reason, ':');
      && reason == reason[..i] + ":" + reason[i + 1..]
      && ':' !in p.title.value
      && (':' in reason[i + 1..] <==> ':' in p.detail.value)
  {
    var i := IndexOf(reason, ':');
    TrimKeepsVisibleChars(reason[..i], ':');
    TrimKeepsVisibleChars(reason[i + 1..], ':');
    assert reason == reason[..i] + [reason[i]] + reason[i + 1..];
  }

  /** A concrete split, with the space after the colon dropped. */
  lemma NotFoundReasonExample()
    ensures BuildNotFoundFromReason(Some("Missing: id 7")).title == Some("Missing")
    ensures BuildNotFoundFromReason(Some("Missing: id 7")).detail == Some("id 7")
  {
    var r := "Missing: id 7";
    ColonAtSeven(r);
    assert r[..7] == "Missing";
    assert r[8..] == " id 7";
    TrimmedExampleHalves();
  }

  lemma ColonAtSeven(r: string)
    requires |r| > 7 && r[7] == ':' && ':' !in r[..7]
    ensures ':' in r && IndexOf(r, ':') == 7
  {
    var i := IndexOf(r, ':');
  }

  lemma TrimmedExampleHalves()
    ensures Trim("Missing") == "Missing" && Trim(" id 7") == "id 7"
  {
    assert TrimStart("Missing") == "Missing";
    assert TrimEnd("Missing") == "Missing";
    assert " id 7"[1..] == "id 7";
    assert TrimStart("id 7") == "id 7";
    assert TrimEnd("id 7") == "id 7";
  }

  /** `buildBadRequestFromReason`: the reason is title and detail; no reason
      gives the title "Invalid request". */
  function BuildBadRequestFromReason(reason: Option<string>): (p: ProblemDetail)
    ensures p.status == BAD_REQUEST && p.typeUri == TypeUri("invalid-request") && p.detail == reason
    ensures p.title == Some(if reason.Some? then reason.value else "Invalid request")
    ensures p.properties == []
  {
    BuildBadRequest(Some(reason.GetOr("Invalid request")), reason)
  }

  /** `buildServerErrorFromReason`: the detail names the reason, or the
      fallback when there is none ("null" when that is missing too). */
  function BuildServerErrorFromReason(reason: Option<string>, fallback: Option<string>): (p: ProblemDetail)
    ensures p.status == INTERNAL_SERVER_ERROR && p.title == Some("Internal server error")
    ensures p.typeUri == TypeUri("server-error") && p.properties == []
    ensures p.detail == Some("An unexpected error occurred: " + Show(if reason.Some? then reason else fallback))
  {
    BuildServerError(Some("An unexpected error occurred: " + Show(if reason.Some? then reason else fallback)))
  }

  /** What `attachInstance` does to a problem: with a request, the
      "instance" property holds its URI; without one, nothing changes. */
  function WithInstance(p: ProblemDetail, requestUri: Option<string>): ProblemDetail {
    if requestUri.Some? then SetProperty(p, "instance", Text(requestUri.value)) else p
  }

  /** `instance` is set exactly when there is a request, and nothing else
      about the problem changes: status, title, type, detail and every other
      property stay, and the property order is kept. */
  lemma WithInstanceChangesOnlyInstance(p: ProblemDetail, requestUri: Option<string>)
    ensures var q := WithInstance(p, requestUri);
      && q.status == p.status && q.title == p.title && q.typeUri == p.typeUri && q.detail == p.detail
      && (requestUri.Some? ==> Property(q, "instance") == Some(Text(requestUri.value)))
      && (requestUri.None? ==> q == p)
      && (forall k :: k != "instance" ==> Property(q, k) == Property(p, k))
      && (DistinctKeys(p.properties) ==> DistinctKeys(q.properties))
      && Keys(p.properties) <= Keys(q.properties)
  {
    if requestUri.Some? {
      PutLookup(p.properties, "instance", Text(requestUri.value));
      if DistinctKeys(p.properties) {
        PutKeepsDistinct(p.properties, "instance", Text(requestUri.value));
      }
    }
  }

  /** A mutable `ProblemDetail`, for the one builder that changes a problem
      it is given. */
  class ProblemDetailHandle {
    var value: ProblemDetail

    constructor (value: ProblemDetail)
      ensures this.value == value
    {
      this.value := value;
    }
  }

  /** `attachInstance`. */
  method AttachInstance(pd: ProblemDetailHandle, requestUri: Option<string>)
    modifies pd
    ensures pd.value == WithInstance(old(pd.value), requestUri)
  {
    if requestUri.Some? {
      pd.value := SetProperty(pd.value, "instance", Text(requestUri.value));
    }
  }
}
