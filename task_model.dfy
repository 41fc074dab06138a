/**
 * The task record as it travels between the document store, the REST API and
 * the client. The store's schema is not part of this model, so every
 * user-supplied field is a possibly missing string: nothing here assumes a
 * required title, a default status or an enumerated status.
 */
module TaskModel {
  import opened JsValues

  /** A store-generated task identifier (`_id`), exposed to clients as a string. */
  type Id = string

  datatype Task = Task(
    id: Id,
    title: Field,
    description: Field,
    assignedTo: Field,
    status: Field,
    createdBy: Id)
}
