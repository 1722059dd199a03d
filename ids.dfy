/** Document identifiers (MongoDB ObjectIds, compared by their hex text). */
module Ids {
  type Id = string
}
