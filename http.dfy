/** What a backend route produces: a value, or an `HTTPException` with its
    status code and detail text; and what a call into code outside the
    model produces: a value, or a raised exception with its `str(e)`. */
module Http {

  datatype HttpError = HttpError(status: int, detail: string)

  datatype Result<+T> = Ok(value: T) | Err(error: HttpError)

  datatype Attempt<+T> = Completed(value: T) | Raised(message: string)
}
