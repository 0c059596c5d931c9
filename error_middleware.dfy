/** The Express error handler: it fills the error envelope from the thrown error, with
    defaults for every missing field. The random trace id used without an `x-trace-id`
    header is an input. */
module ErrorMiddleware {
  import opened Base

  /** The fields of a thrown error the handler reads; `details` is an object, which is
      truthy even when empty. */
  datatype AppError = AppError(
    status: Option<int>,
    code: Option<string>,
    message: Option<string>,
    details: Option<map<string, string>>)

  datatype Envelope = Envelope(code: string, message: string, traceId: string, details: map<string, string>)

  datatype ErrorResponse = ErrorResponse(status: int, payload: Envelope)

  /** `errorMiddleware`: every field falls back to its default only when the error does
      not supply a truthy one. */
  function Handle(err: AppError, traceHeader: Option<string>, randomTrace: string): (r: ErrorResponse)
    ensures r.status == (if TruthyInt(err.status) then err.status.value else 500)
    ensures r.payload.code == (if TruthyStr(err.code) then err.code.value else "ERR_INTERNAL")
    ensures r.payload.message == (if TruthyStr(err.message) then err.message.value else "Internal Error")
    ensures r.payload.details == (if err.details.Some? then err.details.value else map[])
    ensures r.payload.traceId == (if TruthyStr(traceHeader) then traceHeader.value else randomTrace)
  {
    ErrorResponse(
      OrInt(err.status, 500),
      Envelope(OrStr(err.code, "ERR_INTERNAL"), OrStr(err.message, "Internal Error"),
               OrStr(traceHeader, randomTrace), err.details.GetOr(map[])))
  }

  /** An error that carries nothing gets the full set of defaults. */
  lemma HandleDefaults(traceHeader: Option<string>, randomTrace: string)
    ensures var r := Handle(AppError(None, None, None, None), traceHeader, randomTrace);
      && r.status == 500
      && r.payload.code == "ERR_INTERNAL" && r.payload.message == "Internal Error"
      && r.payload.details == map[]
  {
  }

  /** Fields the error does supply reach the response unchanged, whatever the other
      fields hold, and a present header is always the trace id. */
  lemma HandlePassesThrough(err: AppError, header: string, randomTrace: string)
    requires err.status.Some? && err.status.value != 0
    requires err.code.Some? && err.code.value != ""
    requires err.message.Some? && err.message.value != ""
    requires err.details.Some?
    requires header != ""
    ensures Handle(err, Some(header), randomTrace)
         == ErrorResponse(err.status.value,
                          Envelope(err.code.value, err.message.value, header, err.details.value))
  {
  }
}
