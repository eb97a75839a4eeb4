/** The errors the directives throw (src/errors.ts and graphql's GraphQLError). */
module Errors {

  /** The class an error was constructed from; `instanceof` follows the class hierarchy
      ValidationError <: GraphQLError <: Error. */
  datatype ErrorClass = PlainError | GraphQLErrorClass | ValidationErrorClass

  datatype Error = Error(cls: ErrorClass, message: string, extensions: map<string, string>)

  const ValidationCode: string := "REGEX_VALIDATION_FAILED"

  /** `e instanceof ValidationError` */
  predicate IsValidationError(e: Error) {
    e.cls == ValidationErrorClass
  }

  /** `e instanceof GraphQLError` */
  predicate IsGraphQLError(e: Error) {
    e.cls == GraphQLErrorClass || e.cls == ValidationErrorClass
  }

  /** `new GraphQLError(message)`: no extensions. */
  function GraphQLError(message: string): (e: Error)
    ensures e.message == message && e.extensions == map[]
    ensures IsGraphQLError(e) && !IsValidationError(e)
  {
    Error(GraphQLErrorClass, message, map[])
  }

  /** `new ValidationError(message)`: keeps the message and always carries the one
      extension `code: 'REGEX_VALIDATION_FAILED'`. */
  function ValidationError(message: string): (e: Error)
    ensures e.message == message
    ensures e.extensions.Keys == {"code"} && e.extensions["code"] == ValidationCode
    ensures IsValidationError(e) && IsGraphQLError(e)
  {
    Error(ValidationErrorClass, message, map["code" := ValidationCode])
  }

  /** Every ValidationError is a GraphQLError, and the code is the same whatever the message. */
  lemma ValidationErrorIsGraphQLError(m1: string, m2: string)
    ensures IsGraphQLError(ValidationError(m1))
    ensures ValidationError(m1).extensions == ValidationError(m2).extensions
    ensures m1 != m2 ==> ValidationError(m1) != ValidationError(m2)
  {
  }

  /** A plain GraphQLError can never be told apart as a ValidationError, whatever its message:
      this is what the regex directive's `instanceof` test relies on. */
  lemma GraphQLErrorIsNotValidation(m: string)
    ensures !IsValidationError(GraphQLError(m))
    ensures GraphQLError(m) != ValidationError(m)
  {
  }
}
