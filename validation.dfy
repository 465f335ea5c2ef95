/** The schema paths a Mongoose `ValidationError` can name, across the three schemas. */
module Validation {

  datatype Path =
    | NamePath | EmailPath | PasswordPath | RolePath | SpecialtyPath
    | DatePath | ReasonPath
    | PatientPath | FileNamePath | FilePathPath | FileTypePath | DocumentTypePath
}
