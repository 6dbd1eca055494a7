/** Typed failures raised by the services, and the result wrapper that carries them. */
module Errors {

  /** The exceptions the services throw. */
  datatype Error =
    | NotExistsRoomId   // NotExistsRoomIdException: no wait room stored under the id
    | PolicyViolation   // a WaitRoomJoinPolicyService check rejected the request
    | NotFound          // NotFoundException: unknown search type

  /** A value, or the exception that replaced it. */
  datatype Result<T> = Success(value: T) | Failure(error: Error)
}
