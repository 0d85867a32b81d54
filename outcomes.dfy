/** Small failure-carrying datatypes shared by the other modules. */
module Outcomes {

  datatype Option<+T> = None | Some(value: T)

  /** The result of a checked access: `std::vector::at` either yields a value
      or throws `std::out_of_range`, modelled here as the `OutOfRange` case. */
  datatype Result<+T> = Ok(value: T) | OutOfRange
}
