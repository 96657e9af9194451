/** The optional value used where the scraper returns an empty result. */
module Wrappers {

  datatype Option<+T> = None | Some(value: T)
}
