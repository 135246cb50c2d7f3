/**
 * The SDK's error classes (lib/cf/errors.rb). Errors that the SDK raises are values of
 * SdkError; the API error classes only lend their names to the error objects that the
 * response classifier returns.
 */
module Errors {

  /** An exception raised before any request is sent. */
  datatype SdkError =
    | ConfigurationError(message: string)
    | AuthenticationError(message: string)
    | ArgumentError(message: string)

  /** CF::APIError and its ten subclasses. */
  datatype ApiErrorClass =
    | APIError
    | BadRequestError
    | UnauthorizedError
    | ForbiddenError
    | NotFoundError
    | UnprocessableEntityError
    | TooManyRequestsError
    | InternalServerError
    | BadGatewayError
    | ServiceUnavailableError
    | GatewayTimeoutError

  /** The qualified Ruby class name, as `error_class.name` gives it. */
  function ClassName(c: ApiErrorClass): (name: string)
    ensures |name| > 4 && name[..4] == "CF::"
  {
    match c
    case APIError => "CF::APIError"
    case BadRequestError => "CF::BadRequestError"
    case UnauthorizedError => "CF::UnauthorizedError"
    case ForbiddenError => "CF::ForbiddenError"
    case NotFoundError => "CF::NotFoundError"
    case UnprocessableEntityError => "CF::UnprocessableEntityError"
    case TooManyRequestsError => "CF::TooManyRequestsError"
    case InternalServerError => "CF::InternalServerError"
    case BadGatewayError => "CF::BadGatewayError"
    case ServiceUnavailableError => "CF::ServiceUnavailableError"
    case GatewayTimeoutError => "CF::GatewayTimeoutError"
  }

  /** Distinct classes have distinct names, so `error_type` identifies the class. */
  lemma ClassNameInjective(a: ApiErrorClass, b: ApiErrorClass)
    requires ClassName(a) == ClassName(b)
    ensures a == b
  {
  }
}
