/** The ways a controller operation can fail, as the caller observes them. */
module Failures {
  import opened Schema

  datatype Failure =
    | AlreadyExists            // createCategory: a category with the requested name exists (400)
    | NotFound                 // no document for the id or name (404)
    | ParentNotFound           // createItem: the named parent does not exist (thrown, 500)
    | MissingQuery             // searchItemByName without a `name` query parameter (400)
    | CastFailed               // a path parameter that does not cast to an ObjectId (500)
    | DuplicateKey             // the unique index on category names rejected a write (500)
    | Invalid(violation: Violation)  // schema validation failed (500)
}
