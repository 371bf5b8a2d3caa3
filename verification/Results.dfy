/** Outcomes shared by all modules: `Err` stands for a raised Python exception. */
module Results {
  datatype Option<+T> = None | Some(value: T)

  datatype Result<+T> = Ok(value: T) | Err(error: string)
}
