/**
 * The script language's `Value`: nothing, a constant, or a reference to a
 * variable. Its definition and its resolution against variable bindings
 * (`Value::get`) are not part of this model; resolution is a parameter
 * wherever it is used.
 */
module Values {
  datatype Value = None | Constant(text: string) | Var(name: string)
  {
    /** `Value::is_some`: anything but `None`. */
    predicate IsPresent() { !None? }
  }
}
