/** Outcomes of the Python operations that can raise: the exception they raise is a value here. */
module Results {

  /** The Python exceptions the modelled code raises (or lets escape). */
  datatype PyError =
    | ValueError        // raised explicitly by the VM parser's accessors
    | IndexError        // list index out of range (split()[k] with too few tokens)
    | KeyError          // dictionary lookup of a missing key
    | UnboundLocalError // VM commandType: no branch assigned `type`

  datatype Option<+T> = None | Some(value: T)

  datatype Result<+T> = Ok(value: T) | Err(error: PyError)
}
