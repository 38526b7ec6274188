/** Optional values: a request field that may be absent, a collaborator that may give no answer. */
module Wrappers {

  datatype Option<+T> = None | Some(value: T)
}
