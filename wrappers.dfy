/** The optional values the scrapers and the notifier pass around: a JavaScript
    `null` or `undefined` becomes `None`. */
module Wrappers {

  datatype Option<+T> = None | Some(value: T)
}
