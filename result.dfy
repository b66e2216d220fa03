/** The single failure outcome of every parser in the model.
    The unit error structs of the program (one for a bad class spelling, one
    for a bad pitch) are merged into one by `From` conversions, so a caller
    only ever sees "it failed". */
module Results {

  datatype Result<T> = Ok(value: T) | Err
}
