/** The error type of the supplier responses, and the bucket that collects such errors. */
module Schema {

  datatype ErrorCode = SupplierError | TimeoutError | ConnectionError

  datatype SupplierResponseError = SupplierResponseError(code: ErrorCode, message: string)

  function NewSupplierError(message: string): SupplierResponseError {
    SupplierResponseError(SupplierError, message)
  }

  class ErrorsBucket {
    var errors: seq<SupplierResponseError>

    constructor ()
      ensures errors == []
    {
      errors := [];
    }

    method AddErrors(errs: seq<SupplierResponseError>)
      modifies this
      ensures errors == old(errors) + errs
    {
      errors := errors + errs;
    }

    method AddError(err: SupplierResponseError)
      modifies this
      ensures errors == old(errors) + [err]
    {
      errors := errors + [err];
    }
  }
}
