/** Go error values as the models see them. */
module Errors {

  /** An `error`: a plain message (fmt.Errorf, errors.New, or an error handed back by a
      collaborator the model does not look into), or the error vterrors.FromRPCError builds
      from a structured server error. */
  datatype Error = Error(message: string) | ServerError(code: int, message: string)
}
