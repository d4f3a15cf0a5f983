/** The response envelopes shared by all endpoints: a base response with a
    success flag and a message, a data response that adds a required payload,
    and an error response that adds optional details.  Construction applies
    the field defaults and rejects a missing required field, as the schema
    library does. */
module Envelope {
  import opened Wrappers
  import opened JsonValues
  import opened Errors

  /** One reason a schema refuses its input. */
  datatype FieldError =
    | Missing(field: string)
    | NotAString(field: string)
    | StringTooShort(field: string, minLength: nat)
    | StringTooLong(field: string, maxLength: nat)
    | NotAnObject

  datatype BaseResponse = BaseResponse(success: bool, message: string)

  datatype DataResponse<T> = DataResponse(success: bool, message: string, data: T)

  datatype ErrorResponse = ErrorResponse(success: bool, message: string, details: Option<Details>)

  /** `BaseResponse(success=..., message=...)` where each keyword may be left
      out: `success` defaults to true and `message` to "Success". */
  function NewBaseResponse(success: Option<bool> := None, message: Option<string> := None): (r: BaseResponse)
    ensures success.None? ==> r.success
    ensures success.Some? ==> r.success == success.value
    ensures message.None? ==> r.message == "Success"
    ensures message.Some? ==> r.message == message.value
  {
    BaseResponse(
      if success.Some? then success.value else true,
      if message.Some? then message.value else "Success")
  }

  /** `DataResponse(data=..., success=..., message=...)`: `data` is required,
      and the other two fields have the defaults of the base response. */
  function NewDataResponse<T>(data: Option<T>, success: Option<bool> := None, message: Option<string> := None)
    : (r: Result<DataResponse<T>, seq<FieldError>>)
    ensures r.Ok? <==> data.Some?
    ensures r.Err? ==> r.error == [Missing("data")]
    ensures r.Ok? ==> r.value.data == data.value
    ensures r.Ok? ==> BaseResponse(r.value.success, r.value.message) == NewBaseResponse(success, message)
  {
    if data.None? then Err([Missing("data")])
    else
      var base := NewBaseResponse(success, message);
      Ok(DataResponse(base.success, base.message, data.value))
  }

  /** `ErrorResponse(message=..., success=..., details=...)`: `message` is
      required, `success` defaults to false and `details` to `None`. */
  function NewErrorResponse(message: Option<string>, success: Option<bool> := None, details: Option<Details> := None)
    : (r: Result<ErrorResponse, seq<FieldError>>)
    ensures r.Ok? <==> message.Some?
    ensures r.Err? ==> r.error == [Missing("message")]
    ensures r.Ok? ==> r.value.success == (success.Some? && success.value)
    ensures r.Ok? ==> r.value.message == message.value && r.value.details == details
  {
    if message.None? then Err([Missing("message")])
    else Ok(ErrorResponse(if success.Some? then success.value else false, message.value, details))
  }

  /** `model_dump()` of an error response: an object with exactly the three
      fields, absent details dumped as `null`. */
  function DumpErrorResponse(e: ErrorResponse): (j: Value)
    ensures j.JObj? && j.fields.Keys == {"success", "message", "details"}
    ensures j.fields["success"] == JBool(e.success)
    ensures j.fields["message"] == JStr(e.message)
    ensures j.fields["details"] == if e.details.Some? then JObj(e.details.value) else JNull
  {
    JObj(map[
      "success" := JBool(e.success),
      "message" := JStr(e.message),
      "details" := if e.details.Some? then JObj(e.details.value) else JNull])
  }

  /** The error response can be read back from its dump. */
  function LoadDumpedErrorResponse(j: Value): (r: Option<ErrorResponse>)
    ensures r.Some? ==> DumpErrorResponse(r.value) == j
  {
    if j.JObj? && j.fields.Keys == {"success", "message", "details"}
      && j.fields["success"].JBool? && j.fields["message"].JStr?
      && (j.fields["details"].JNull? || j.fields["details"].JObj?)
    then
      var d := j.fields["details"];
      var e := ErrorResponse(j.fields["success"].b, j.fields["message"].s,
                             if d.JObj? then Some(d.fields) else None);
      assert DumpErrorResponse(e).fields == j.fields;
      Some(e)
    else None
  }

  /** Dumping an error response loses nothing. */
  lemma ErrorResponseRoundTrip(e: ErrorResponse)
    ensures LoadDumpedErrorResponse(DumpErrorResponse(e)) == Some(e)
  {
  }
}
