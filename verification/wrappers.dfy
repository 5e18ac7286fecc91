/** Optional values, standing for Swift optionals (`MTLBuffer?`, `MIDIMessageDelegate?`). */
module Wrappers {

  datatype Option<+T> = None | Some(value: T)
}
