/**
 * The delete handlers all have one shape: a single DELETE at
 * `<resource>/<id>`, then a confirmation naming what was deleted; a failed
 * request makes the handler throw, so no confirmation is produced.
 */
module Deletion {
  import opened Wrappers
  import opened JsValues
  import opened SquashStore

  /** `${resource}/${id}` */
  function ItemEndpoint(resource: string, id: int): string {
    resource + "/" + IntToString(id)
  }

  /** `${noun} ${id} deleted successfully` */
  function DeletedMessage(noun: string, id: int): string {
    noun + " " + IntToString(id) + " deleted successfully"
  }

  /** One DELETE, and the confirmation message unless it fails. */
  method DeleteById<P>(store: Store<P>, resource: string, noun: string, id: int) returns (r: Option<string>)
    modifies store`log
    ensures store.log == old(store.log) + [Request(DELETE, ItemEndpoint(resource, id), None)]
    ensures r == if |old(store.log)| in store.failing then None else Some(DeletedMessage(noun, id))
  {
    var ok := store.Delete(ItemEndpoint(resource, id));
    r := if ok then Some(DeletedMessage(noun, id)) else None;
  }

  /**
   * Different ids are deleted at different endpoints and confirmed with
   * different messages.
   */
  lemma DeleteDistinguishesIds(resource: string, noun: string, a: int, b: int)
    requires a != b
    ensures ItemEndpoint(resource, a) != ItemEndpoint(resource, b)
    ensures DeletedMessage(noun, a) != DeletedMessage(noun, b)
  {
    if ItemEndpoint(resource, a) == ItemEndpoint(resource, b) {
      FramedIntInjective(resource + "/", "", a, b);
    }
    if DeletedMessage(noun, a) == DeletedMessage(noun, b) {
      FramedIntInjective(noun + " ", " deleted successfully", a, b);
    }
  }
}
