/** The failure vocabulary shared by the services: the NestJS HTTP exceptions the
    code raises, plus the persistence failure a repository write can surface. */
module Exceptions {

  datatype Option<+T> = None | Some(value: T) {
    function GetOr(default: T): T {
      match this
      case Some(v) => v
      case None => default
    }
  }

  /** A BadRequestException carries either one message or the list of messages
      the gateway returned. */
  datatype Detail = Text(text: string) | Messages(messages: seq<string>)

  datatype Exception =
    | NotFound(message: string)
    | BadRequest(detail: Detail)
    | InternalServerError(message: string)
    | StoreFailure(message: string)

  /** Either a value or the exception the call raised. */
  datatype Result<+T> = Ok(value: T) | Raise(exception: Exception) {
    predicate IsFailure() {
      Raise?
    }
  }
}
