/** The optional value used for parse failures and for browser reads that raise. */
module Options {

  datatype Option<+T> = None | Some(value: T)
}
